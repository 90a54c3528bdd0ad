/** Promotion, synchronization and reprotection keep the cluster invariant. */
module ConfigSteps {
  import opened Text
  import opened AuctionDomain
  import opened AuctionLog
  import opened Replica
  import opened LocalInvariant
  import opened Cluster
  import opened PairInvariant
  import opened ClusterInvariant
  import opened MutationSteps
  import opened MailSteps

  lemma StartPromotionInv(w: World, epoch: int)
    requires Inv(w) && Enabled(w, StartPromotion(epoch))
    ensures Inv(Next(w, StartPromotion(epoch)))
  {
  }

  lemma StartReprotectionInv(w: World)
    requires Inv(w) && Enabled(w, StartReprotection)
    ensures Inv(Next(w, StartReprotection))
  {
  }

  lemma DropSyncInv(w: World)
    requires Inv(w) && Enabled(w, DropSync)
    ensures Inv(Next(w, DropSync))
  {
  }

  lemma FetchAsideInv(w: World, source: string, target: string)
    requires Inv(w) && Enabled(w, FetchAside(source, target))
    ensures Inv(Next(w, FetchAside(source, target)))
  {
    assert Sound(w.replicas[source]);
    assert w.replicas[source].epoch <= NewestEpoch(w.config);
  }

  // ---------------------------------------------------------------- begin

  lemma BegunPlaced(k: string, x: State, epoch: int, saved: bool)
    requires Placed(k, x) && !x.ready
    ensures var (x', accepted) := OnBegin(x, epoch, saved);
      && Placed(k, x') && !x'.ready && x.epoch <= x'.epoch
      && x'.records == x.records && x'.auctions == x.auctions
      && (x' != x ==> x'.epoch == epoch && x.epoch < epoch && accepted)
      && (accepted ==> x'.epoch == epoch)
      && (x.role == Backup && accepted ==> x.epoch < epoch)
  {
  }

  lemma BoundRises(replicas: Replicas, epoch: int, higher: int)
    requires EpochsBounded(replicas, epoch) && epoch <= higher
    ensures EpochsBounded(replicas, higher)
  {
  }

  /** The part of the invariant that speaks of the configured pair. */
  ghost predicate PairOk(replicas: Replicas, ops: map<string, Op>, config: Config)
  {
    && Shape(replicas, config)
    && PrimaryOk(replicas[config.primary], config)
    && BackupOk(replicas[config.primary], replicas[config.backup], config)
    && StageOk(replicas[config.primary], replicas[config.backup], GetOp(ops, config.primary), config)
    && SyncOk(replicas, config)
  }

  /** The part that speaks of every replica. */
  ghost predicate CrowdOk(replicas: Replicas, ops: map<string, Op>, config: Config, acked: map<string, Record>)
  {
    && config.backup in replicas
    && AllSound(replicas) && AllPlaced(replicas) && OpsOk(replicas, ops)
    && OthersFenced(replicas, config.primary)
    && EpochsBounded(replicas, NewestEpoch(config))
    && AckedHeld(replicas[config.backup].records, acked)
    && AllCovered(replicas, replicas[config.backup].records)
  }

  lemma Assemble(w: World)
    requires PairOk(w.replicas, w.ops, w.config) && CrowdOk(w.replicas, w.ops, w.config, w.acked)
    requires CopiesOk(w.copies, NewestEpoch(w.config))
    requires MailsOk(w.mail, w.config, w.replicas[w.config.primary].records)
    ensures Inv(w)
  {
  }

  lemma CopiesAge(copies: set<Copy>, epoch: int, higher: int)
    requires CopiesOk(copies, epoch) && epoch <= higher
    ensures CopiesOk(copies, higher)
  {
    forall copy | copy in copies ensures CopyOk(copy, higher) {
      assert CopyOk(copy, epoch);
    }
  }

  /** The same epoch with a promotion begun or not, or the epoch the promotion brings. */
  predicate Follows(config: Config, config': Config)
  {
    if config'.epoch == config.epoch then
      && (Begun(config) ==> Begun(config') && config'.mode.promotedEpoch == config.mode.promotedEpoch)
      && (Begun(config') ==> config'.mode.promotedEpoch > config.epoch)
    else
      Begun(config) && !Begun(config') && config'.epoch == config.mode.promotedEpoch
  }

  lemma MailsAge(mail: set<Mail>, config: Config, config': Config, decided: map<string, Record>,
      more: map<string, Record>)
    requires MailsOk(mail, config, decided) && Follows(config, config')
    requires config'.epoch == config.epoch ==> decided.Keys <= more.Keys
    ensures MailsOk(mail, config', more)
  {
    forall m | m in mail ensures MailOk(m.message, config', more) {
      assert MailOk(m.message, config, decided);
    }
  }

  lemma FetchedPair(w: World, target: string)
    requires Inv(w) && Enabled(w, Fetch(target))
    ensures PairOk(w.replicas, w.ops, Next(w, Fetch(target)).config)
    ensures CrowdOk(w.replicas, w.ops, Next(w, Fetch(target)).config, w.acked)
    ensures Follows(w.config, Next(w, Fetch(target)).config)
  {
  }

  lemma FetchInv(w: World, target: string)
    requires Inv(w) && Enabled(w, Fetch(target))
    ensures Inv(Next(w, Fetch(target)))
  {
    var decided := w.replicas[w.config.primary].records;
    assert Sound(w.replicas[SourceOf(w.config)]);
    FetchedPair(w, target);
    MailsAge(w.mail, w.config, Next(w, Fetch(target)).config, decided, decided);
    Assemble(Next(w, Fetch(target)));
  }

  function Started(config: Config): Config
  {
    if config.mode.Promoting? then config.(mode := config.mode.(begun := true)) else config
  }

  lemma PromotedPair(w: World, x: State)
    requires Inv(w) && w.config.mode.Promoting? && !w.config.mode.begun
    requires !x.ready && x.epoch == w.config.mode.promotedEpoch
    ensures PairOk(w.replicas[w.config.backup := x], w.ops, Started(w.config))
  {
  }

  lemma PromotedCrowd(w: World, x: State)
    requires Inv(w) && w.config.mode.Promoting? && !w.config.mode.begun
    requires Sound(x) && Placed(w.config.backup, x) && !x.ready && x.epoch == w.config.mode.promotedEpoch
    requires x.records == w.replicas[w.config.backup].records && w.config.backup !in w.ops
    ensures CrowdOk(w.replicas[w.config.backup := x], w.ops, Started(w.config), w.acked)
  {
    var k := w.config.backup;
    BoundRises(w.replicas, w.config.epoch, x.epoch);
    StoreReplica(w.replicas, w.ops, k, x, x.epoch);
    FenceKept(w.replicas, k, x, w.config.primary);
    assert Covered(x.records, x);
    CoverGrows(w.replicas, w.replicas[k := x], k, x.records, x.records);
  }

  /** The candidate moves to the promoted epoch; the primary it leaves behind is not yet required to know. */
  lemma PromotedInv(w: World, x: State)
    requires Inv(w) && w.config.mode.Promoting? && !w.config.mode.begun
    requires Sound(x) && Placed(w.config.backup, x) && !x.ready && x.epoch == w.config.mode.promotedEpoch
    requires x.records == w.replicas[w.config.backup].records && w.config.backup !in w.ops
    ensures Inv(WithReplica(w, w.config.backup, x).(config := Started(w.config)))
  {
    PromotedPair(w, x);
    PromotedCrowd(w, x);
    CopiesAge(w.copies, w.config.epoch, x.epoch);
    Assemble(WithReplica(w, w.config.backup, x).(config := Started(w.config)));
  }

  lemma BeginInv(w: World, saved: bool)
    requires Inv(w) && Enabled(w, SendBegin(saved))
    ensures Inv(Next(w, SendBegin(saved)))
  {
    var k := w.config.backup;
    var x := w.replicas[k];
    var (x', accepted) := OnBegin(x, w.config.mode.promotedEpoch, saved);
    assert Sound(x) && Placed(k, x);
    BackupIsIdle(w);
    OnBeginSound(x, w.config.mode.promotedEpoch, saved);
    BegunPlaced(k, x, w.config.mode.promotedEpoch, saved);
    if accepted && !w.config.mode.begun {
      PromotedInv(w, x');
    } else {
      assert Next(w, SendBegin(saved)) == w by {
        assert w.replicas[k := x'] == w.replicas;
      }
    }
  }

  // ---------------------------------------------------------------- install

  lemma InstalledPlaced(k: string, t: State, full: FullState, epoch: int, saved: bool)
    requires Placed(k, t)
    ensures var (t', done) := OnInstall(t, full, epoch, saved);
      && Placed(k, t') && t.epoch <= t'.epoch
      && (done ==> t.role == Backup && !t'.ready && Copied(t', full, epoch))
      && (!done ==> t' == t)
      && (t'.ready == t.ready && t'.backup == t.backup && t'.role == t.role)
  {
  }

  /** In the reprotection window the new copy contains everything the old backup held. */
  lemma CopyCovers(w: World, records: map<string, Record>)
    requires Inv(w) && SyncOf(w.config.mode).Some?
    requires records == SyncOf(w.config.mode).value.full.records
    ensures Grows(w.replicas[w.config.backup].records, records)
  {
  }

  ghost predicate SoundCopy(w: World, t: State)
    requires Shape(w.replicas, w.config)
  {
    var sync := SyncOf(w.config.mode);
    && sync.Some? && sync.value.target in w.replicas && sync.value.target !in w.ops
    && sync.value.target != w.config.primary
    && Sound(t) && Placed(sync.value.target, t) && !t.ready
    && w.replicas[sync.value.target].epoch <= t.epoch && Copied(t, sync.value.full, EpochOf(w.config))
  }

  /** The slot of the current synchronization once its target holds the state. */
  function Filled(config: Config): Config
  {
    if SyncOf(config.mode).None? then config else WithSync(config, SyncOf(config.mode).value.(installed := true))
  }

  lemma CopiedPair(w: World, t: State)
    requires Inv(w) && SoundCopy(w, t)
    ensures PairOk(w.replicas[SyncOf(w.config.mode).value.target := t], w.ops, Filled(w.config))
  {
    if SyncOf(w.config.mode).value.target == w.config.backup {
      CopyPaired(w.replicas[w.config.primary], t);
    }
  }

  lemma CopiedCrowd(w: World, t: State)
    requires Inv(w) && SoundCopy(w, t)
    ensures CrowdOk(w.replicas[SyncOf(w.config.mode).value.target := t], w.ops, Filled(w.config), w.acked)
  {
    var sync := SyncOf(w.config.mode).value;
    var k := sync.target;
    var after := w.replicas[k := t];
    CopyCovers(w, sync.full.records);
    FenceKept(w.replicas, k, t, w.config.primary);
    assert Grows(w.replicas[w.config.backup].records, after[w.config.backup].records);
    CoverGrows(w.replicas, after, k, w.replicas[w.config.backup].records, after[w.config.backup].records);
    StoreReplica(w.replicas, w.ops, k, t, NewestEpoch(w.config));
  }

  /** The target holds a sound copy of the source. */
  lemma CopiedInv(w: World, t: State)
    requires Inv(w) && SoundCopy(w, t)
    ensures Inv(WithReplica(w, SyncOf(w.config.mode).value.target, t).(config := Filled(w.config)))
  {
    var decided := w.replicas[w.config.primary].records;
    CopiedPair(w, t);
    CopiedCrowd(w, t);
    MailsAge(w.mail, w.config, Filled(w.config), decided, decided);
    Assemble(WithReplica(w, SyncOf(w.config.mode).value.target, t).(config := Filled(w.config)));
  }

  /** The synchronization slot after a state was installed at `k`. */
  function Unfinished(config: Config, k: string): Config
  {
    var sync := SyncOf(config.mode);
    if sync.Some? && sync.value.target == k then WithSync(config, sync.value.(installed := false)) else config
  }

  lemma ForeignPair(w: World, k: string, t: State)
    requires Inv(w) && k in w.replicas && k != w.config.primary && k != w.config.backup
    ensures PairOk(w.replicas[k := t], w.ops, Unfinished(w.config, k))
  {
  }

  lemma ForeignCrowd(w: World, k: string, t: State)
    requires Inv(w) && k in w.replicas && k != w.config.primary && k != w.config.backup && k !in w.ops
    requires Sound(t) && Placed(k, t) && !t.ready && w.replicas[k].epoch <= t.epoch <= NewestEpoch(w.config)
    ensures CrowdOk(w.replicas[k := t], w.ops, Unfinished(w.config, k), w.acked)
  {
    var after, records := w.replicas[k := t], w.replicas[w.config.backup].records;
    StoreReplica(w.replicas, w.ops, k, t, NewestEpoch(w.config));
    FenceKept(w.replicas, k, t, w.config.primary);
    CoverGrows(w.replicas, after, k, records, records);
  }

  /** A state installed outside the pair, for whatever attempt, disturbs nobody. */
  lemma ForeignInv(w: World, k: string, t: State)
    requires Inv(w) && k in w.replicas && k != w.config.primary && k != w.config.backup && k !in w.ops
    requires Sound(t) && Placed(k, t) && !t.ready && w.replicas[k].epoch <= t.epoch <= NewestEpoch(w.config)
    ensures Inv(WithReplica(w, k, t).(config := Unfinished(w.config, k)))
  {
    ForeignPair(w, k, t);
    ForeignCrowd(w, k, t);
    Assemble(WithReplica(w, k, t).(config := Unfinished(w.config, k)));
  }

  /** What an installation makes of its target. */
  lemma InstalledFits(w: World, copy: Copy, saved: bool)
    requires Inv(w) && copy in w.copies && copy.target in w.replicas
    requires OnInstall(w.replicas[copy.target], copy.full, copy.epoch, saved).1
    ensures var k, t := copy.target, OnInstall(w.replicas[copy.target], copy.full, copy.epoch, saved).0;
      && k !in w.ops && k != w.config.primary
      && Sound(t) && Placed(k, t) && !t.ready && Copied(t, copy.full, copy.epoch)
      && w.replicas[k].epoch <= t.epoch <= NewestEpoch(w.config)
  {
    var k := copy.target;
    assert CopyOk(copy, NewestEpoch(w.config)) && Sound(w.replicas[k]) && Placed(k, w.replicas[k]);
    OnInstallSound(w.replicas[k], copy.full, copy.epoch, saved);
    InstalledPlaced(k, w.replicas[k], copy.full, copy.epoch, saved);
    BackupsAreIdle(w, k);
  }

  lemma InstallInv(w: World, copy: Copy, saved: bool)
    requires Inv(w) && Enabled(w, Install(copy, saved))
    ensures Inv(Next(w, Install(copy, saved)))
  {
    var (t, done) := OnInstall(w.replicas[copy.target], copy.full, copy.epoch, saved);
    if done {
      InstalledFits(w, copy, saved);
      if CurrentCopy(w.config, copy) {
        CopiedInv(w, t);
      } else {
        ForeignInv(w, copy.target, t);
      }
    }
  }

  // ---------------------------------------------------------------- complete

  lemma CompletedPlaced(k: string, s: State, epoch: int, backup: string, saved: bool)
    requires Placed(k, s) && Trimmed(backup) && (s.ready || s.prepared == map[])
    ensures var (s', done) := OnComplete(s, epoch, backup, saved);
      && (done ==>
            && Placed(k, s') && s'.ready && s'.role == Primary && s'.backup == backup && s'.epoch == epoch == s.epoch
            && s' == s.(backup := backup, ready := true, reported := s'.reported))
  {
  }

  lemma PromotedPairCompletes(w: World, s: State, config: Config)
    requires Inv(w) && w.config.mode.Promoting? && SyncOf(w.config.mode).Some? && SyncOf(w.config.mode).value.installed
    requires s == w.replicas[w.config.backup].(
      backup := SyncOf(w.config.mode).value.target, ready := true, reported := s.reported, role := Primary)
    requires config == Config(w.config.backup, SyncOf(w.config.mode).value.target, w.config.mode.promotedEpoch, Ready)
    requires w.config.backup !in w.ops
    ensures PairOk(w.replicas[w.config.backup := s], w.ops, config)
  {
    assert Sound(w.replicas[config.backup]);
    CopyPaired(s, w.replicas[config.backup]);
  }

  lemma PromotedCrowdCompletes(w: World, s: State, config: Config)
    requires Inv(w) && w.config.mode.Promoting? && SyncOf(w.config.mode).Some? && SyncOf(w.config.mode).value.installed
    requires w.config.backup !in w.ops && Sound(s) && Placed(w.config.backup, s) && s.pending == map[]
    requires s == w.replicas[w.config.backup].(
      backup := SyncOf(w.config.mode).value.target, ready := true, reported := s.reported, role := Primary)
    requires config == Config(w.config.backup, SyncOf(w.config.mode).value.target, w.config.mode.promotedEpoch, Ready)
    ensures CrowdOk(w.replicas[w.config.backup := s], w.ops, config, w.acked)
  {
    var k := w.config.backup;
    var after, records := w.replicas[k := s], w.replicas[config.backup].records;
    assert records == w.replicas[k].records;
    StoreReplica(w.replicas, w.ops, k, s, w.config.mode.promotedEpoch);
    assert OthersFenced(after, k) by {
      forall j | j in after && j != k ensures Fenced(after, after[j]) {
        assert j != w.config.primary ==> Fenced(w.replicas, w.replicas[j]);
      }
    }
    assert Covered(records, s);
    CoverGrows(w.replicas, after, k, records, records);
  }

  /** After a promotion the candidate leads, paired with the copy, and the old primary is fenced. */
  lemma PromotionCompleted(w: World, s: State)
    requires Inv(w) && w.config.mode.Promoting? && SyncOf(w.config.mode).Some? && SyncOf(w.config.mode).value.installed
    requires w.config.backup !in w.ops
    requires Sound(s) && Placed(w.config.backup, s) && s.pending == map[]
    requires s == w.replicas[w.config.backup].(
      backup := SyncOf(w.config.mode).value.target, ready := true, reported := s.reported, role := Primary)
    ensures Inv(WithReplica(w, w.config.backup, s).(
                config := Config(
                  w.config.backup, SyncOf(w.config.mode).value.target, w.config.mode.promotedEpoch, Ready)))
  {
    var config := Config(w.config.backup, SyncOf(w.config.mode).value.target, w.config.mode.promotedEpoch, Ready);
    PromotedPairCompletes(w, s, config);
    PromotedCrowdCompletes(w, s, config);
    MailsAge(w.mail, w.config, config, w.replicas[w.config.primary].records, s.records);
    Assemble(WithReplica(w, w.config.backup, s).(config := config));
  }

  lemma ReprotectedPair(w: World, s: State, config: Config)
    requires Inv(w) && w.config.mode.Reprotecting? && SyncOf(w.config.mode).Some?
        && SyncOf(w.config.mode).value.installed
    requires s == w.replicas[w.config.primary].(backup := SyncOf(w.config.mode).value.target, reported := s.reported)
    requires config == Config(w.config.primary, SyncOf(w.config.mode).value.target, w.config.epoch, Ready)
    requires w.config.primary !in w.ops
    ensures PairOk(w.replicas[w.config.primary := s], w.ops, config)
  {
    assert Sound(w.replicas[config.backup]);
    CopyPaired(s, w.replicas[config.backup]);
  }

  lemma ReprotectedCrowd(w: World, s: State, config: Config)
    requires Inv(w) && w.config.mode.Reprotecting? && SyncOf(w.config.mode).Some?
        && SyncOf(w.config.mode).value.installed
    requires w.config.primary !in w.ops && Sound(s) && Placed(w.config.primary, s)
    requires s == w.replicas[w.config.primary].(backup := SyncOf(w.config.mode).value.target, reported := s.reported)
    requires config == Config(w.config.primary, SyncOf(w.config.mode).value.target, w.config.epoch, Ready)
    ensures CrowdOk(w.replicas[w.config.primary := s], w.ops, config, w.acked)
  {
    var k := w.config.primary;
    var after, records := w.replicas[k := s], w.replicas[config.backup].records;
    CopyCovers(w, records);
    StoreReplica(w.replicas, w.ops, k, s, w.config.epoch);
    FenceKept(w.replicas, k, s, k);
    assert Covered(records, s);
    CoverGrows(w.replicas, after, k, w.replicas[w.config.backup].records, records);
  }

  /** After a reprotection the same primary leads, paired with the new copy. */
  lemma ReprotectionCompleted(w: World, s: State)
    requires Inv(w) && w.config.mode.Reprotecting? && SyncOf(w.config.mode).Some?
        && SyncOf(w.config.mode).value.installed
    requires w.config.primary !in w.ops && Sound(s) && Placed(w.config.primary, s)
    requires s == w.replicas[w.config.primary].(backup := SyncOf(w.config.mode).value.target, reported := s.reported)
    ensures Inv(WithReplica(w, w.config.primary, s).(
                config := Config(w.config.primary, SyncOf(w.config.mode).value.target, w.config.epoch, Ready)))
  {
    var config := Config(w.config.primary, SyncOf(w.config.mode).value.target, w.config.epoch, Ready);
    ReprotectedPair(w, s, config);
    ReprotectedCrowd(w, s, config);
    MailsAge(w.mail, w.config, config, w.replicas[w.config.primary].records, s.records);
    Assemble(WithReplica(w, w.config.primary, s).(config := config));
  }

  lemma CompleteInv(w: World, call: Completion, saved: bool)
    requires Inv(w) && Enabled(w, TakeComplete(call, saved))
    ensures Inv(Next(w, TakeComplete(call, saved)))
  {
    var (s, done) := OnComplete(w.replicas[call.primary], call.epoch, call.target, saved);
    if done && CurrentCall(w.config, call) {
      CurrentCompletionInv(w, call, saved);
    } else if done {
      assert WithReplica(w, call.primary, w.replicas[call.primary]) == w;
    }
  }

  lemma CurrentCompletionInv(w: World, call: Completion, saved: bool)
    requires Inv(w) && Allowed(w, TakeComplete(call, saved)) && CurrentCall(w.config, call)
    ensures Inv(Next(w, TakeComplete(call, saved)))
  {
    var r := w.replicas[call.primary];
    var (s, done) := OnComplete(r, call.epoch, call.target, saved);
    if done {
      assert Sound(r) && Placed(call.primary, r) && Placed(call.target, w.replicas[call.target]);
      CompletedPlaced(call.primary, r, call.epoch, call.target, saved);
      if w.config.mode.Promoting? {
        PromotionCompleted(w, s);
      } else {
        ReprotectionCompleted(w, s);
      }
    }
  }

  // ---------------------------------------------------------------- every event, every run

  predicate MutationEvent(ev: Event)
  {
    ev.Submit? || ev.SendPrepare? || ev.Decide? || ev.SendCommit? || ev.SendAbort? || ev.Restart?
    || ev.Delay? || ev.Late?
  }

  lemma MutationNextInv(w: World, ev: Event)
    requires Inv(w) && Enabled(w, ev) && MutationEvent(ev)
    ensures Inv(Next(w, ev))
  {
    match ev
    case Submit(node, request, now) => SubmitInv(w, node, request, now);
    case SendPrepare(node, delivery) => PrepareInv(w, node, delivery);
    case Decide(node, saved) => DecideInv(w, node, saved);
    case SendCommit(node, delivery, cleared) => CommitInv(w, node, delivery, cleared);
    case SendAbort(node, delivery) => AbortInv(w, node, delivery);
    case Restart(node) => RestartInv(w, node);
    case Delay(node) => DelayInv(w, node);
    case Late(mail, saved) => LateInv(w, mail, saved);
  }

  lemma ConfigNextInv(w: World, ev: Event)
    requires Inv(w) && Enabled(w, ev) && !MutationEvent(ev)
    ensures Inv(Next(w, ev))
  {
    match ev
    case StartPromotion(epoch) => StartPromotionInv(w, epoch);
    case SendBegin(saved) => BeginInv(w, saved);
    case Fetch(target) => FetchInv(w, target);
    case FetchAside(source, target) => FetchAsideInv(w, source, target);
    case Install(copy, saved) => InstallInv(w, copy, saved);
    case Call(_) =>
    case TakeComplete(call, saved) => CompleteInv(w, call, saved);
    case EndCall(_) =>
    case StartReprotection => StartReprotectionInv(w);
    case DropSync => DropSyncInv(w);
  }

  lemma NextInv(w: World, ev: Event)
    requires Inv(w) && Enabled(w, ev)
    ensures Inv(Next(w, ev))
  {
    if MutationEvent(ev) {
      MutationNextInv(w, ev);
    } else {
      ConfigNextInv(w, ev);
    }
  }

  /** The invariant holds in every state any run from a fresh pair reaches. */
  lemma {:induction false} RunInv(w: World, events: seq<Event>)
    requires Inv(w) && Run(w, events)
    ensures Inv(After(w, events))
    decreases |events|
  {
    if events != [] {
      NextInv(w, events[0]);
      RunInv(Next(w, events[0]), events[1..]);
    }
  }
}
