/** What holds of controller and replicas together in every system they can reach. */
module Recovery {
  import opened Text
  import opened AuctionDomain
  import opened Replica
  import opened PairInvariant
  import opened Cluster
  import opened ClusterInvariant
  import opened MutationSteps
  import opened ConfigSteps
  import opened Durability
  import opened Failover
  import opened StaleContinuations
  import opened JointSystem
  import opened JointInvariant
  import Controller
  import ControllerInvariant

  // ---------------------------------------------------------------- the published pair

  /** The primary of the ready assignment serves at its epoch with its backup. */
  predicate ServesAs(a: Controller.Assignment, replicas: Replicas)
  {
    && a.primary in replicas && a.backup.Some? && a.backup.value in replicas
    && replicas[a.primary].role == Primary && replicas[a.primary].ready
    && replicas[a.primary].epoch == a.epoch && replicas[a.primary].backup == a.backup.value
    && replicas[a.backup.value].role == Backup && replicas[a.backup.value].epoch == a.epoch
  }

  /** Whenever the controller publishes a primary, the pair it believes in is the pair that serves. */
  lemma ReadyAgrees(s: System)
    requires Reachable(s) && Controller.GetPrimary(s.control).Some?
    ensures s.control.assignment.Some?
    ensures Agrees(s.control, s.world.config) && ServesAs(s.control.assignment.value, s.world.replicas)
    ensures Controller.GetPrimary(s.control).value == Controller.Worker(s.world.config.primary, s.world.config.epoch)
  {
    ReachableInv(s);
    ReachedInv(s.world);
  }

  /** A completion at a pair that serves changes at most the replica it reaches. */
  lemma CompletionAtPair(w: World, a: Controller.Assignment, call: Completion, saved: bool)
    requires w.config.mode.Ready? && Allowed(w, TakeComplete(call, saved)) && ServesAs(a, w.replicas)
    requires Trimmed(a.backup.value)
    ensures ServesAs(a, Next(w, TakeComplete(call, saved)).replicas) <==>
      !(call.primary == a.primary && SupersededCompletion(w, call, saved))
  {
    var r := w.replicas[call.primary];
    var (s, done) := OnComplete(r, call.epoch, call.target, saved);
    assert Next(w, TakeComplete(call, saved)).replicas == if done then w.replicas[call.primary := s] else w.replicas;
    assert !done ==> s == r;
    assert s == r || (r.role == Primary && s == r.(backup := Strip(call.target), ready := true, reported := true));
  }

  /** A completion leaves that so exactly when it is not one of a superseded attempt that changes the primary. */
  lemma CompletionKeepsServiceIff(s: System, call: Completion, saved: bool)
    requires Reachable(s) && IsReady(s.control) && Allowed(s.world, TakeComplete(call, saved))
    ensures ServesAs(s.control.assignment.value, Next(s.world, TakeComplete(call, saved)).replicas) <==>
      !(call.primary == s.control.assignment.value.primary && SupersededCompletion(s.world, call, saved))
  {
    ReachableInv(s);
    ReachedInv(s.world);
    ReadyAgrees(s);
    assert Placed(s.world.config.backup, s.world.replicas[s.world.config.backup]);
    CompletionAtPair(s.world, s.control.assignment.value, call, saved);
  }

  // ---------------------------------------------------------------- from the loss of the primary to the election

  /** The acts lead from one system to the other, and nothing is assigned from the first to the last. */
  ghost predicate Vacant(s: System, acts: seq<Act>, later: System)
    decreases |acts|
  {
    && s.control.assignment.None?
    && (if acts == [] then later == s else Admits(s, acts[0]) && Vacant(Advance(s, acts[0]), acts[1..], later))
  }

  predicate Steady(config: Config)
  {
    !config.mode.Promoting? && SyncOf(config.mode).None?
  }

  lemma VacantRegion(s: System, region: Controller.Event)
    requires JointInv(s) && Admits(s, Rule(region)) && s.control.assignment.None?
    requires Controller.Next(s.control, region).assignment.None?
    ensures Effect(s.control, region) == []
  {
  }

  /** While nothing is assigned the pair stays the same, whatever else happens. */
  lemma VacantKeepsPair(s: System, act: Act)
    requires JointInv(s) && Admits(s, act) && s.control.assignment.None? && Control(s, act).assignment.None?
    requires Steady(s.world.config)
    ensures Advance(s, act).world.config == s.world.config
  {
    match act
    case Store(event) =>
      OneEvent(s.world, event);
      if event.TakeComplete? {
        CompletionPlan(s.world, event.call, event.saved);
      } else {
        AutonomousPlan(s.world, event);
      }
    case Rule(region) => VacantRegion(s, region);
    case Fetched(_) =>
    case Answered(t, saved) =>
      OneEvent(s.world, TakeComplete(CallOf(t), saved));
      CompletionPlan(s.world, CallOf(t), saved);
    case Dropped(_) =>
  }

  lemma {:induction false} VacantKeepsPairThroughout(s: System, acts: seq<Act>, later: System)
    requires JointInv(s) && Vacant(s, acts, later) && Steady(s.world.config)
    ensures later.world.config == s.world.config && later.control.assignment.None? && JointInv(later)
    ensures s.control.lastEpoch <= later.control.lastEpoch
    decreases |acts|
  {
    if acts != [] {
      AdvanceInv(s, acts[0]);
      VacantKeepsPair(s, acts[0]);
      EpochKept(s, acts[0]);
      VacantKeepsPairThroughout(Advance(s, acts[0]), acts[1..], later);
    }
  }

  lemma EpochKept(s: System, act: Act)
    requires JointInv(s)
    ensures s.control.lastEpoch <= Control(s, act).lastEpoch
  {
    if act.Rule? {
      ControllerInvariant.NextOk(s.control, act.region);
    }
  }

  /** The eviction of the primary. */
  ghost predicate Evicts(s: System, s': System)
  {
    && s.control.assignment.Some?
    && Admits(s, Rule(Controller.Evicted(s.control.assignment.value.primary)))
    && Advance(s, Rule(Controller.Evicted(s.control.assignment.value.primary))) == s'
  }

  predicate Protects(c: Controller.Control, primary: string, backup: string)
  {
    && IsReady(c) && primary in c.nodes && backup in c.nodes
    && c.assignment.value.primary == primary && c.assignment.value.backup == Some(backup)
  }

  lemma EvictionLeavesPair(s: System, vacant: System, primary: string, backup: string)
    requires Reachable(s) && Protects(s.control, primary, backup) && Evicts(s, vacant)
    ensures JointInv(vacant) && vacant.world == s.world && Agrees(s.control, s.world.config)
    ensures vacant.control == Controller.Evict(s.control, primary).0
  {
    ReachableInv(s);
    AdvanceInv(s, Rule(Controller.Evicted(primary)));
    NothingHappens(s.world);
  }

  /** The candidate of a restricted election. */
  lemma NomineeElected(c: Controller.Control, backup: string)
    requires ControllerInvariant.Ok(c)
    ensures var elected := Controller.Elect(c, Some({backup})).1;
      && (elected.Some? ==> elected.value == Controller.Worker(backup, c.lastEpoch + 1))
      && (c.assignment.None? && backup in c.nodes ==> elected.Some?)
  {
    ControllerInvariant.ElectionDecides(c, Some({backup}));
    if backup in c.nodes {
      assert backup in {backup} * c.nodes.Keys;
    }
  }

  /** The replica holds the receipt of every success reply ever sent. */
  predicate HoldsAcknowledged(w: World, k: string)
  {
    k in w.replicas && forall id :: id in w.acked ==> Held(w.replicas[k].records, id, w.acked[id])
  }

  lemma RunOne(w: World, event: Event)
    requires Enabled(w, event)
    ensures LeadsTo(w, [event], Next(w, event))
  {
    assert [event][1..] == [];
    assert LeadsTo(Next(w, event), [], Next(w, event));
  }

  lemma BackupHoldsAcknowledged(w: World)
    requires Reached(w)
    ensures HoldsAcknowledged(w, w.config.backup)
  {
    ReachedInv(w);
  }

  lemma ElectionAdmitted(s: System, backup: string)
    requires Tied(s.control, s.world.config) && s.world.config.mode.Ready? && s.world.config.backup == backup
    requires Controller.Elect(s.control, Some({backup})).1 == Some(Controller.Worker(backup, s.control.lastEpoch + 1))
    ensures Admits(s, Rule(Controller.Elected(Some({backup}))))
    ensures Advance(s, Rule(Controller.Elected(Some({backup})))) == System(
      Controller.Elect(s.control, Some({backup})).0,
      Next(s.world, StartPromotion(s.control.lastEpoch + 1)), s.waiting, s.granted)
  {
    RunOne(s.world, StartPromotion(s.control.lastEpoch + 1));
  }

  /** The restricted election elects nobody, or a replica that holds every acknowledged receipt, and may do so. */
  ghost predicate ElectsHolder(s: System, backup: string)
  {
    var elected := Controller.Elect(s.control, Some({backup})).1;
    elected.Some? ==>
      && elected.value == Controller.Worker(backup, s.control.lastEpoch + 1)
      && HoldsAcknowledged(s.world, backup)
      && Admits(s, Rule(Controller.Elected(Some({backup}))))
  }

  lemma PairElectsHolder(s: System, backup: string)
    requires JointInv(s) && s.world.config.mode.Ready? && s.world.config.backup == backup
    ensures ElectsHolder(s, backup)
  {
    NomineeElected(s.control, backup);
    BackupHoldsAcknowledged(s.world);
    if Controller.Elect(s.control, Some({backup})).1.Some? {
      ElectionAdmitted(s, backup);
    }
  }

  lemma PairAfterEviction(s: System, vacant: System, acts: seq<Act>, later: System, primary: string, backup: string)
    requires Reachable(s) && Protects(s.control, primary, backup)
    requires Evicts(s, vacant) && Vacant(vacant, acts, later)
    ensures JointInv(later) && later.world.config.mode.Ready? && later.world.config.backup == backup
    ensures s.control.lastEpoch <= later.control.lastEpoch
    ensures vacant.control == Controller.Evict(s.control, primary).0 && ControllerInvariant.Ok(s.control)
  {
    EvictionLeavesPair(s, vacant, primary, backup);
    VacantKeepsPairThroughout(vacant, acts, later);
    ReachableInv(s);
  }

  /**
   * When the primary of a ready assignment is evicted, the election this calls for, whenever it runs before another,
   * picks nobody or a replica that by then holds every acknowledged receipt, at an epoch newer than any before.
   */
  lemma FirstCandidateHoldsAcknowledged(
    s: System, vacant: System, acts: seq<Act>, later: System, primary: string, backup: string)
    requires Reachable(s) && Protects(s.control, primary, backup)
    requires Evicts(s, vacant) && Vacant(vacant, acts, later)
    ensures Controller.Evict(s.control, primary).1 == Controller.Election(Some({backup}))
    ensures s.control.lastEpoch <= later.control.lastEpoch && ElectsHolder(later, backup)
    ensures acts == [] ==> Controller.Elect(later.control, Some({backup})).1.Some?
  {
    PairAfterEviction(s, vacant, acts, later, primary, backup);
    PairElectsHolder(later, backup);
    EvictionNominatesBackup(s.control);
    if acts == [] {
      NomineeElected(later.control, backup);
    }
  }
}
