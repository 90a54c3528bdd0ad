/** A complete failover of controller and replicas together, and the retry that follows it. */
module JointFailover {
  import opened Text
  import opened AuctionDomain
  import opened Replica
  import opened LocalInvariant
  import opened PairInvariant
  import opened Cluster
  import opened ClusterInvariant
  import opened MutationSteps
  import opened Durability
  import opened Failover
  import opened StaleContinuations
  import opened JointSystem
  import opened JointInvariant
  import opened Recovery
  import Controller
  import ControllerInvariant

  // ---------------------------------------------------------------- acts in sequence

  ghost predicate Leads(s: System, acts: seq<Act>, s': System)
  {
    Steps(s, acts) && Final(s, acts) == s'
  }

  lemma {:induction false} LeadsThrough(s: System, acts: seq<Act>, middle: System, more: seq<Act>, s': System)
    requires Leads(s, acts, middle) && Leads(middle, more, s')
    ensures Leads(s, acts + more, s')
    decreases |acts|
  {
    if acts == [] {
      assert [] + more == more;
    } else {
      assert (acts + more)[1..] == acts[1..] + more;
      LeadsThrough(Advance(s, acts[0]), acts[1..], middle, more, s');
    }
  }

  /** What an act makes of the system once its events have made `w` of the cluster. */
  function Moved(s: System, act: Act, w: World): System
  {
    System(Control(s, act), w, Waiting(s, act), Granted(s, act))
  }

  predicate Open(s: System, act: Act, events: seq<Event>)
  {
    Possible(s, act) && Orderly(s, act) && Effects(s, act) == events
  }

  lemma OneAct(s: System, act: Act, events: seq<Event>, w: World)
    requires Open(s, act, events) && LeadsTo(s.world, events, w)
    ensures Leads(s, [act], Moved(s, act, w))
  {
    assert [act][1..] == [];
    assert Leads(Advance(s, act), [], Advance(s, act));
  }

  lemma SilentAct(s: System, act: Act)
    requires Open(s, act, []) || (Open(s, act, [DropSync]) && Unsynchronized(s.world.config) == s.world.config)
    ensures Leads(s, [act], Moved(s, act, s.world))
  {
    if Open(s, act, []) {
      NothingHappens(s.world);
      OneAct(s, act, [], s.world);
    } else {
      RunOne(s.world, DropSync);
      OneAct(s, act, [DropSync], s.world);
    }
  }

  lemma TwoActs(s: System, first: Act, one: Event, middle: World, second: Act, two: Event, w: World)
    requires LeadsTo(s.world, [one, two], w) && Step(s.world, one, middle)
    requires Open(s, first, [one]) && Open(Moved(s, first, middle), second, [two])
    ensures Leads(s, [first, second], Moved(Moved(s, first, middle), second, w))
  {
    var s1 := Moved(s, first, middle);
    TwoEvents(s.world, one, two);
    RunOne(s.world, one);
    RunOne(middle, two);
    OneAct(s, first, [one], middle);
    OneAct(s1, second, [two], w);
    LeadsThrough(s, [first], s1, [second], Moved(s1, second, w));
    assert [first] + [second] == [first, second];
  }

  // ---------------------------------------------------------------- the controller's part

  /** After the eviction of `primary` and the election of `backup`. */
  function Elected(c: Controller.Control, primary: string, backup: string): Controller.Control
  {
    Controller.Elect(Controller.Evict(c, primary).0, Some({backup})).0
  }

  function Chosen(c: Controller.Control, primary: string, backup: string): Controller.Control
  {
    Controller.PickBackup(Elected(c, primary, backup), backup, c.lastEpoch + 1).0
  }

  function Reported(c: Controller.Control, primary: string, backup: string, target: string): Controller.Control
  {
    Controller.ReportSync(Chosen(c, primary, backup), target, backup, c.lastEpoch + 1).0
  }

  function TicketFor(c: Controller.Control, backup: string, target: string): Ticket
  {
    Controller.Ticket(backup, c.lastEpoch + 1, Controller.Promoting, target, 0)
  }

  /** The first registered replica beside the pair, in the order of addresses. */
  predicate NextInLine(c: Controller.Control, primary: string, backup: string, target: string)
  {
    First(c.nodes.Keys - {primary} - {backup}) == Some(target)
  }

  lemma BackupElected(c: Controller.Control, primary: string, backup: string)
    requires ControllerInvariant.Ok(c) && Protects(c, primary, backup)
    ensures Controller.Elect(Controller.Evict(c, primary).0, Some({backup})).1 ==
            Some(Controller.Worker(backup, c.lastEpoch + 1))
    ensures var c' := Elected(c, primary, backup);
      && c'.nodes.Keys == c.nodes.Keys - {primary} && c'.lastEpoch == c.lastEpoch + 1
      && c'.assignment == Some(Controller.Assignment(backup, c.lastEpoch + 1, Controller.Promoting, None, None, 0,
                                                     c'.nodes.Keys, {}))
  {
    EvictionNominatesBackup(c);
    ControllerInvariant.EvictOk(c, primary);
    NomineeElected(Controller.Evict(c, primary).0, backup);
    assert Controller.Evict(c, primary).0.nodes == c.nodes - {primary};
  }

  lemma TargetChosen(c: Controller.Control, primary: string, backup: string, target: string)
    requires ControllerInvariant.Ok(c) && Protects(c, primary, backup) && NextInLine(c, primary, backup, target)
    ensures Controller.PickBackup(Elected(c, primary, backup), backup, c.lastEpoch + 1).1 == Controller.Chosen(target)
    ensures var c' := Chosen(c, primary, backup);
      && target in c'.nodes && target != backup && c'.lastEpoch == c.lastEpoch + 1
      && c'.assignment == Some(Controller.Assignment(backup, c.lastEpoch + 1, Controller.Promoting, Some(target),
                                                     None, 0,
                                                     c.nodes.Keys - {primary}, {target}))
  {
    BackupElected(c, primary, backup);
    var c' := Elected(c, primary, backup);
    assert backup in c'.assignment.value.eligible;
    assert Controller.Backups(c'.nodes, backup, c'.assignment.value) == c.nodes.Keys - {primary} - {backup};
    assert {} + {target} == {target};
  }

  lemma TargetReported(c: Controller.Control, primary: string, backup: string, target: string)
    requires ControllerInvariant.Ok(c) && Protects(c, primary, backup) && NextInLine(c, primary, backup, target)
    requires Id(backup) && Id(target)
    ensures Controller.ReportSync(Chosen(c, primary, backup), target, backup, c.lastEpoch + 1).1 ==
            Some(TicketFor(c, backup, target))
    ensures var c' := Reported(c, primary, backup, target);
      && Controller.Live(c', TicketFor(c, backup, target)) && c'.assignment == Chosen(c, primary, backup).assignment
  {
    TargetChosen(c, primary, backup, target);
  }

  // ---------------------------------------------------------------- stage by stage

  /** Evict the primary, elect its backup, promote it, and choose a backup for it. */
  function FirstActs(primary: string, backup: string, epoch: int): seq<Act>
  {
    [Rule(Controller.Evicted(primary))]
    + [Rule(Controller.Elected(Some({backup}))), Store(SendBegin(true))]
    + [Rule(Controller.BackupSought(backup, epoch))]
  }

  /** Copy the state to the chosen backup, complete, and activate. */
  function SecondActs(t: Ticket, full: FullState): seq<Act>
  {
    [Fetched(t.backup), Store(Install(Copy(t.backup, full, t.epoch), true))]
    + [Rule(Controller.SyncReported(t.backup, t.primary, t.epoch)), Answered(t, true)]
    + [Rule(Controller.Activated(t))]
  }

  /** The acts of a whole failover lead from one system to the other. */
  ghost predicate FailsOver(s: System, primary: string, backup: string, target: string, s': System)
    requires s.world.config.backup in s.world.replicas
  {
    Leads(s, FirstActs(primary, backup, s.control.lastEpoch + 1)
             + SecondActs(TicketFor(s.control, backup, target), BackupState(s.world)), s')
  }

  predicate Leading(c: Controller.Control, primary: string)
  {
    IsReady(c) && c.assignment.value.primary == primary && primary in c.nodes
  }

  lemma EvictionStage(s: System, primary: string) returns (s': System)
    requires Leading(s.control, primary)
    ensures Leads(s, [Rule(Controller.Evicted(primary))], s')
    ensures s' == s.(control := Controller.Evict(s.control, primary).0)
  {
    s' := Moved(s, Rule(Controller.Evicted(primary)), s.world);
    SilentAct(s, Rule(Controller.Evicted(primary)));
  }

  /** The elected backup accepts its promotion. */
  lemma ElectionStage(s: System, backup: string, epoch: int) returns (s': System)
    requires Inv(s.world) && s.world.config.mode.Ready? && s.world.config.backup == backup
        && epoch > s.world.config.epoch
    requires Controller.Elect(s.control, Some({backup})).1 == Some(Controller.Worker(backup, epoch))
    ensures Leads(s, [Rule(Controller.Elected(Some({backup}))), Store(SendBegin(true))], s')
    ensures s'.control == Controller.Elect(s.control, Some({backup})).0
    ensures s'.waiting == s.waiting && s'.granted == s.granted
    ensures Failover.Candidate(s'.world, epoch) && SameService(s.world, s'.world)
    ensures s'.world.config == s.world.config.(mode := Promoting(epoch, true, None))
    ensures s'.world.replicas == s.world.replicas[backup := s'.world.replicas[backup]]
    ensures BackupState(s'.world) == BackupState(s.world)
  {
    var w := BackupPromoted(s.world, epoch);
    TwoEvents(s.world, StartPromotion(epoch), SendBegin(true));
    var middle := Next(s.world, StartPromotion(epoch));
    var act := Rule(Controller.Elected(Some({backup})));
    TwoActs(s, act, StartPromotion(epoch), middle, Store(SendBegin(true)), SendBegin(true), w);
    s' := Moved(Moved(s, act, middle), Store(SendBegin(true)), w);
  }

  /** The controller chooses the backup of the promotion. */
  lemma ChoiceStage(s: System, backup: string, epoch: int, target: string) returns (s': System)
    requires s.world.config.mode == Promoting(epoch, true, None)
    requires Controller.PickBackup(s.control, backup, epoch).1 == Controller.Chosen(target)
    ensures Leads(s, [Rule(Controller.BackupSought(backup, epoch))], s')
    ensures s' == s.(control := Controller.PickBackup(s.control, backup, epoch).0)
  {
    s' := Moved(s, Rule(Controller.BackupSought(backup, epoch)), s.world);
    SilentAct(s, Rule(Controller.BackupSought(backup, epoch)));
  }

  /** The chosen backup fetches and installs the candidate's state. */
  lemma CopyStage(s: System, epoch: int, target: string) returns (s': System)
    requires Failover.Candidate(s.world, epoch) && Spare(s.world, target) && Expects(s.control, target)
    ensures Leads(s, [Fetched(target), Store(Install(Copy(target, BackupState(s.world), epoch), true))], s')
    ensures s'.control == s.control && s'.waiting == s.waiting && s'.granted == s.granted
    ensures Failover.Candidate(s'.world, epoch) && SameService(s.world, s'.world)
    ensures s'.world.config == s.world.config.(mode := s'.world.config.mode)
    ensures CurrentCall(s'.world.config, Completion(s.world.config.backup, target, epoch))
        && target in s'.world.replicas
  {
    var install := Install(Copy(target, BackupState(s.world), epoch), true);
    var w := TargetCopied(s.world, epoch, target);
    TwoEvents(s.world, Fetch(target), install);
    var middle := Next(s.world, Fetch(target));
    TwoActs(s, Fetched(target), Fetch(target), middle, Store(install), install, w);
    s' := Moved(Moved(s, Fetched(target), middle), Store(install), w);
  }

  /** Its report makes the controller ask the candidate to complete. */
  lemma CompletionStage(s: System, t: Ticket) returns (s': System)
    requires Failover.Candidate(s.world, t.epoch) && Id(t.backup) && t.backup in s.world.replicas
    requires t.primary == s.world.config.backup && t.backup != t.primary && CurrentCall(s.world.config, CallOf(t))
    requires Controller.ReportSync(s.control, t.backup, t.primary, t.epoch).1 == Some(t)
    ensures Leads(s, [Rule(Controller.SyncReported(t.backup, t.primary, t.epoch)), Answered(t, true)], s')
    ensures s'.control == Controller.ReportSync(s.control, t.backup, t.primary, t.epoch).0
    ensures s'.granted == s.granted + {t}
    ensures s'.world.config == Config(t.primary, t.backup, t.epoch, Ready) && SameService(s.world, s'.world)
    ensures t.primary in s'.world.replicas && s'.world.replicas[t.primary].pending == map[]
  {
    var w := PairCompleted(s.world, t.epoch, t.backup);
    TwoEvents(s.world, Call(t.backup), TakeComplete(CallOf(t), true));
    var middle := Next(s.world, Call(t.backup));
    var act := Rule(Controller.SyncReported(t.backup, t.primary, t.epoch));
    TwoActs(s, act, Call(t.backup), middle, Answered(t, true), TakeComplete(CallOf(t), true), w);
    s' := Moved(Moved(s, act, middle), Answered(t, true), w);
  }

  lemma ActivationStage(s: System, t: Ticket) returns (s': System)
    requires t in s.granted && Controller.Live(s.control, t) && s.world.config.mode.Ready?
    ensures Leads(s, [Rule(Controller.Activated(t))], s')
    ensures s'.control == Controller.Activate(s.control, t).0 && s'.world == s.world
  {
    s' := Moved(s, Rule(Controller.Activated(t)), s.world);
    SilentAct(s, Rule(Controller.Activated(t)));
  }

  // ---------------------------------------------------------------- the whole of it

  lemma FirstHalf(s: System, primary: string, backup: string, target: string) returns (s': System)
    requires Inv(s.world) && ControllerInvariant.Ok(s.control)
    requires Protects(s.control, primary, backup) && Agrees(s.control, s.world.config)
    requires NextInLine(s.control, primary, backup, target)
    ensures Leads(s, FirstActs(primary, backup, s.control.lastEpoch + 1), s')
    ensures s'.control == Chosen(s.control, primary, backup) && s'.granted == s.granted
    ensures Failover.Candidate(s'.world, s.control.lastEpoch + 1) && SameService(s.world, s'.world)
    ensures s'.world.config == s.world.config.(mode := Promoting(s.control.lastEpoch + 1, true, None))
    ensures s'.world.replicas == s.world.replicas[backup := s'.world.replicas[backup]]
    ensures BackupState(s'.world) == BackupState(s.world)
  {
    var epoch := s.control.lastEpoch + 1;
    BackupElected(s.control, primary, backup);
    TargetChosen(s.control, primary, backup, target);
    var evicted := EvictionStage(s, primary);
    var elected := ElectionStage(evicted, backup, epoch);
    s' := ChoiceStage(elected, backup, epoch, target);
    var one := [Rule(Controller.Evicted(primary))];
    var two := [Rule(Controller.Elected(Some({backup}))), Store(SendBegin(true))];
    LeadsThrough(s, one, evicted, two, elected);
    LeadsThrough(s, one + two, elected, [Rule(Controller.BackupSought(backup, epoch))], s');
  }

  lemma SecondHalf(s: System, t: Ticket) returns (s': System)
    requires Failover.Candidate(s.world, t.epoch) && Spare(s.world, t.backup) && t.primary == s.world.config.backup
    requires Expects(s.control, t.backup)
    requires Controller.ReportSync(s.control, t.backup, t.primary, t.epoch).1 == Some(t)
    requires Controller.Live(Controller.ReportSync(s.control, t.backup, t.primary, t.epoch).0, t)
    ensures Leads(s, SecondActs(t, BackupState(s.world)), s')
    ensures s'.control.assignment == Some(s.control.assignment.value.(backup := Some(t.backup), candidate := None,
                                                                      status := Controller.Ready))
    ensures s'.world.config == Config(t.primary, t.backup, t.epoch, Ready) && SameService(s.world, s'.world)
    ensures t.primary in s'.world.replicas && s'.world.replicas[t.primary].pending == map[]
  {
    var copied := CopyStage(s, t.epoch, t.backup);
    var completed := CompletionStage(copied, t);
    s' := ActivationStage(completed, t);
    var one := [Fetched(t.backup), Store(Install(Copy(t.backup, BackupState(s.world), t.epoch), true))];
    var two := [Rule(Controller.SyncReported(t.backup, t.primary, t.epoch)), Answered(t, true)];
    LeadsThrough(s, one, copied, two, completed);
    LeadsThrough(s, one + two, completed, [Rule(Controller.Activated(t))], s');
  }

  lemma BothHalves(s: System, primary: string, backup: string, target: string) returns (s': System)
    requires Inv(s.world) && ControllerInvariant.Ok(s.control)
    requires Protects(s.control, primary, backup) && Agrees(s.control, s.world.config)
    requires NextInLine(s.control, primary, backup, target) && Spare(s.world, target)
    ensures FailsOver(s, primary, backup, target, s')
    ensures Controller.GetPrimary(s'.control) == Some(Controller.Worker(backup, s.control.lastEpoch + 1))
    ensures s'.world.config == Config(backup, target, s.control.lastEpoch + 1, Ready) && SameService(s.world, s'.world)
    ensures backup in s'.world.replicas && s'.world.replicas[backup].pending == map[]
  {
    var t := TicketFor(s.control, backup, target);
    assert Placed(backup, s.world.replicas[backup]);
    TargetChosen(s.control, primary, backup, target);
    TargetReported(s.control, primary, backup, target);
    var chosen := FirstHalf(s, primary, backup, target);
    s' := SecondHalf(chosen, t);
    LeadsThrough(s, FirstActs(primary, backup, t.epoch), chosen, SecondActs(t, BackupState(s.world)), s');
  }

  lemma ReadySystem(s: System)
    requires Reachable(s) && IsReady(s.control)
    ensures Inv(s.world) && ControllerInvariant.Ok(s.control) && Agrees(s.control, s.world.config)
  {
    ReachableInv(s);
    ReachedInv(s.world);
  }

  /** From every reachable ready system: the backup leads after the primary's loss, protected by the next replica. */
  lemma FailoverActivates(s: System, primary: string, target: string) returns (s': System)
    requires Reachable(s) && Protects(s.control, primary, s.world.config.backup)
    requires NextInLine(s.control, primary, s.world.config.backup, target) && Spare(s.world, target)
    ensures s.world.config.backup in s.world.replicas
    ensures FailsOver(s, primary, s.world.config.backup, target, s')
    ensures Controller.GetPrimary(s'.control) ==
            Some(Controller.Worker(s.world.config.backup, s.control.lastEpoch + 1))
    ensures s'.world.config == Config(s.world.config.backup, target, s.control.lastEpoch + 1, Ready)
    ensures SameService(s.world, s'.world)
    ensures s.world.config.backup in s'.world.replicas && s'.world.replicas[s.world.config.backup].pending == map[]
  {
    ReadySystem(s);
    s' := BothHalves(s, primary, s.world.config.backup, target);
  }

  lemma ReachableLeads(s: System, acts: seq<Act>, s': System)
    requires Reachable(s) && Leads(s, acts, s')
    ensures Reachable(s')
  {
    var start, before :| JointStart(start) && Steps(start, before) && Final(start, before) == s;
    LeadsThrough(start, before, s, acts, s');
  }

  lemma ReachableFailsOver(s: System, primary: string, backup: string, target: string, s': System)
    requires s.world.config.backup in s.world.replicas
    requires Reachable(s) && FailsOver(s, primary, backup, target, s')
    ensures Reachable(s')
  {
    ReachableLeads(s, FirstActs(primary, backup, s.control.lastEpoch + 1)
                      + SecondActs(TicketFor(s.control, backup, target), BackupState(s.world)), s');
  }

  /** And a client that retries an acknowledged request there gets the original answer back. */
  lemma FailoverAnswersRetry(s: System, primary: string, target: string, request: MutationRequest, now: real)
    returns (s': System)
    requires Reachable(s) && Protects(s.control, primary, s.world.config.backup)
    requires NextInLine(s.control, primary, s.world.config.backup, target) && Spare(s.world, target)
    requires Trimmed(request.requestId) && Trimmed(request.auction.auctionId)
    requires request.epoch == s.control.lastEpoch + 1 && request.mutationType != UnspecifiedType
    requires request.requestId in s.world.acked
    requires FingerprintOf(request, request.mutationType) == s.world.acked[request.requestId].fingerprint
    ensures s.world.config.backup in s.world.replicas
    ensures FailsOver(s, primary, s.world.config.backup, target, s') && Reachable(s')
    ensures Controller.GetPrimary(s'.control) == Some(Controller.Worker(s.world.config.backup, request.epoch))
    ensures var retry := Submit(s.world.config.backup, request, now);
      && Enabled(s'.world, retry)
      && Next(s'.world, retry).replicas == s'.world.replicas
      && ReplyTo(s'.world, retry) == Some(s.world.acked[request.requestId].response.(replayed := true))
  {
    ReachableInv(s);
    ReachedInv(s.world);
    s' := FailoverActivates(s, primary, target);
    ReachableFailsOver(s, primary, s.world.config.backup, target, s');
    BackupIsIdle(s.world);
    ReachableInv(s');
    RetryReplays(s'.world, request, now);
  }
}
