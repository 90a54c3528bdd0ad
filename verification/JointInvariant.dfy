/**
 * What every step of controller and replicas together keeps: the controller's ready assignment is the pair that serves.
 */
module JointInvariant {
  import opened Text
  import opened Replica
  import opened PairInvariant
  import opened Cluster
  import opened ClusterInvariant
  import opened ConfigSteps
  import opened Durability
  import opened Failover
  import opened StaleContinuations
  import opened JointSystem
  import Controller
  import ControllerInvariant

  // ---------------------------------------------------------------- what a region may change in an assignment

  lemma AssignedOnlyBy(c: Controller.Control, region: Controller.Event)
    requires ControllerInvariant.Ok(c) && c.assignment.None? && Controller.Next(c, region).assignment.Some?
    ensures region.Registered? || (region.Elected? && Controller.Elect(c, region.eligible).1.Some?)
  {
  }

  lemma LastEpochRises(c: Controller.Control, region: Controller.Event)
    requires ControllerInvariant.Ok(c) && c.lastEpoch >= 1 && Controller.Next(c, region).lastEpoch != c.lastEpoch
    ensures (region.Registered? && region.request.epoch > c.lastEpoch)
         || (region.Elected? && Controller.Elect(c, region.eligible).1.Some?)
  {
  }

  lemma PrimaryKept(c: Controller.Control, region: Controller.Event)
    requires ControllerInvariant.Ok(c) && c.assignment.Some? && Controller.Next(c, region).assignment.Some?
    requires Controller.Next(c, region).lastEpoch == c.lastEpoch
    ensures Controller.Next(c, region).assignment.value.primary == c.assignment.value.primary
    ensures Controller.Next(c, region).assignment.value.epoch == c.assignment.value.epoch
  {
    ControllerInvariant.NextOk(c, region);
    if region.Registered? {
      RegistrationKeeps(c, region.request);
    }
  }

  /** Who is expected changes to another replica only by a choice. */
  lemma ExpectedKept(c: Controller.Control, region: Controller.Event, target: string)
    requires ControllerInvariant.Ok(c) && !Picks(c, region) && Expects(Controller.Next(c, region), target)
    ensures Expects(c, target)
  {
    if region.Registered? {
      RegistrationExpects(c, region.request, target);
    }
  }

  lemma RegistrationExpects(c: Controller.Control, request: Controller.RegisterRequest, target: string)
    requires ControllerInvariant.Ok(c) && Expects(Controller.Register(c, request).0, target)
    ensures Expects(c, target)
  {
  }

  lemma ReadyKept(c: Controller.Control, region: Controller.Event)
    requires ControllerInvariant.Ok(c) && IsReady(c) && IsReady(Controller.Next(c, region))
    requires Controller.Next(c, region).lastEpoch == c.lastEpoch
    ensures Controller.Next(c, region).assignment == c.assignment
  {
  }

  // ---------------------------------------------------------------- the bond between assignment and pair

  /** A handler belongs to the assignment's past, or to the epoch of one that was dropped. */
  predicate Filed(c: Controller.Control, t: Ticket)
  {
    Trimmed(t.backup) && (Known(c, t) || (c.assignment.None? && t.epoch == c.lastEpoch))
  }

  /** The pair that serves is the one the handler asked for. */
  predicate Installed(config: Config, t: Ticket)
  {
    !config.mode.Promoting? && config.primary == t.primary && config.backup == t.backup && config.epoch == t.epoch
  }

  /** The controller waits for this replica if it waits for any. */
  predicate Undistracted(c: Controller.Control, target: string)
  {
    c.assignment.Some? && c.assignment.value.status != Controller.Ready && Controller.Expected(c.assignment.value).Some?
    ==> Expects(c, target)
  }

  /** The assignment is the configuration's, and a synchronization in progress is the one the controller waits for. */
  predicate Tied(c: Controller.Control, config: Config)
  {
    && 1 <= EpochOf(config) <= c.lastEpoch
    && (c.assignment.Some? ==>
          && c.assignment.value.primary == SourceOf(config) && c.assignment.value.epoch == EpochOf(config))
    && (SyncOf(config.mode).Some? ==> Undistracted(c, SyncOf(config.mode).value.target))
    && (IsReady(c) ==> Agrees(c, config))
  }

  predicate HandlersOk(c: Controller.Control, config: Config, waiting: set<Ticket>, granted: set<Ticket>)
  {
    && (forall t :: t in waiting + granted ==> Filed(c, t))
    && (forall t :: t in granted && Controller.Live(c, t) ==> Installed(config, t))
  }

  ghost predicate JointInv(s: System)
  {
    && ControllerInvariant.Ok(s.control)
    && Reached(s.world)
    && Tied(s.control, s.world.config)
    && HandlersOk(s.control, s.world.config, s.waiting, s.granted)
  }

  // ---------------------------------------------------------------- the cluster's own events

  /** Pair, epochs and the target of the synchronization are the same. */
  predicate SamePlan(config: Config, config': Config)
  {
    && config'.primary == config.primary && config'.backup == config.backup && config'.epoch == config.epoch
    && config'.mode.Ready? == config.mode.Ready? && config'.mode.Promoting? == config.mode.Promoting?
    && EpochOf(config') == EpochOf(config)
    && (SyncOf(config'.mode).Some? ==>
          SyncOf(config.mode).Some? && SyncOf(config'.mode).value.target == SyncOf(config.mode).value.target)
  }

  lemma SamePlanKeeps(c: Controller.Control, config: Config, config': Config, waiting: set<Ticket>,
      granted: set<Ticket>)
    requires Tied(c, config) && HandlersOk(c, config, waiting, granted) && SamePlan(config, config')
    ensures Tied(c, config') && HandlersOk(c, config', waiting, granted)
  {
  }

  lemma AutonomousPlan(w: World, event: Event)
    requires Enabled(w, event) && Autonomous(event) && !event.TakeComplete?
    ensures SamePlan(w.config, Next(w, event).config)
  {
  }

  /** The current completion takes effect. */
  function Completed(config: Config, target: string): Config
  {
    Config(SourceOf(config), target, EpochOf(config), Ready)
  }

  lemma CompletionPlan(w: World, call: Completion, saved: bool)
    requires Enabled(w, TakeComplete(call, saved))
    ensures var config' := Next(w, TakeComplete(call, saved)).config;
      || config' == w.config
      || (CurrentCall(w.config, call) && config' == Completed(w.config, call.target))
    ensures CurrentCall(w.config, call) && OnComplete(w.replicas[call.primary], call.epoch, call.target, saved).1 ==>
      Next(w, TakeComplete(call, saved)).config == Completed(w.config, call.target)
  {
  }

  /** Whoever the controller waits for is the one whose completion took effect. */
  lemma CompletedKeeps(c: Controller.Control, config: Config, target: string, waiting: set<Ticket>,
      granted: set<Ticket>)
    requires Tied(c, config) && HandlersOk(c, config, waiting, granted)
    requires SyncOf(config.mode).Some? && SyncOf(config.mode).value.target == target
    ensures Tied(c, Completed(config, target)) && HandlersOk(c, Completed(config, target), waiting, granted)
  {
    forall t | t in granted && Controller.Live(c, t) ensures Installed(Completed(config, target), t) {
      assert Expects(c, t.backup);
    }
  }

  lemma OneEvent(w: World, event: Event)
    requires Run(w, [event])
    ensures Enabled(w, event) && After(w, [event]) == Next(w, event)
  {
    assert [event][1..] == [];
  }

  lemma ReachedAfter(w: World, events: seq<Event>)
    requires Reached(w) && Run(w, events)
    ensures Reached(After(w, events))
  {
    ReachedLeads(w, events, After(w, events));
  }

  lemma StoreKeeps(s: System, event: Event)
    requires JointInv(s) && Admits(s, Store(event))
    ensures JointInv(Advance(s, Store(event)))
  {
    OneEvent(s.world, event);
    ReachedAfter(s.world, [event]);
    if event.TakeComplete? {
      CompletionPlan(s.world, event.call, event.saved);
      if Next(s.world, event).config != s.world.config {
        CompletedKeeps(s.control, s.world.config, event.call.target, s.waiting, s.granted);
      }
    } else {
      AutonomousPlan(s.world, event);
      SamePlanKeeps(s.control, s.world.config, Next(s.world, event).config, s.waiting, s.granted);
    }
  }

  // ---------------------------------------------------------------- fetches and completions

  lemma FetchPlan(w: World, target: string)
    requires Enabled(w, Fetch(target))
    ensures var config' := Next(w, Fetch(target)).config;
      && SyncOf(config'.mode).Some? && SyncOf(config'.mode).value.target == target
      && config'.primary == w.config.primary && config'.backup == w.config.backup && config'.epoch == w.config.epoch
      && config'.mode.Promoting? == w.config.mode.Promoting? && EpochOf(config') == EpochOf(w.config)
  {
  }

  lemma TwoEvents(w: World, first: Event, second: Event)
    requires Run(w, [first, second])
    ensures Enabled(w, first) && Enabled(Next(w, first), second)
    ensures After(w, [first, second]) == Next(Next(w, first), second)
  {
    assert [first, second][1..] == [second];
    OneEvent(Next(w, first), second);
  }

  lemma FetchedKeeps(s: System, target: string)
    requires JointInv(s) && Admits(s, Fetched(target))
    ensures JointInv(Advance(s, Fetched(target)))
  {
    ReachedAfter(s.world, Effects(s, Fetched(target)));
    if s.world.config.mode.Ready? {
      TwoEvents(s.world, StartReprotection, Fetch(target));
      FetchPlan(Next(s.world, StartReprotection), target);
    } else {
      OneEvent(s.world, Fetch(target));
      FetchPlan(s.world, target);
    }
  }

  /** An answer says that the primary serves with the handler's backup. */
  lemma AnswerInstalled(w: World, config: Config, t: Ticket, saved: bool)
    requires Inv(w) && w.config == config && Enabled(w, TakeComplete(CallOf(t), saved))
    requires OnComplete(w.replicas[t.primary], t.epoch, t.backup, saved).1 && Trimmed(t.backup)
    requires t.primary == SourceOf(config) && t.epoch == EpochOf(config)
    ensures Installed(Next(w, TakeComplete(CallOf(t), saved)).config, t)
  {
    CompletionPlan(w, CallOf(t), saved);
    if !CurrentCall(config, CallOf(t)) {
      assert Placed(config.primary, w.replicas[config.primary]) && Placed(config.backup, w.replicas[config.backup]);
    }
  }

  lemma AnsweredBond(
    c: Controller.Control, w: World, t: Ticket, saved: bool, waiting: set<Ticket>, granted: set<Ticket>)
    requires Inv(w) && Tied(c, w.config) && HandlersOk(c, w.config, waiting, granted) && t in waiting
    requires Enabled(w, TakeComplete(CallOf(t), saved))
    requires OnComplete(w.replicas[t.primary], t.epoch, t.backup, saved).1
    ensures var config' := Next(w, TakeComplete(CallOf(t), saved)).config;
      Tied(c, config') && HandlersOk(c, config', waiting - {t}, granted + {t})
  {
    CompletionPlan(w, CallOf(t), saved);
    if Next(w, TakeComplete(CallOf(t), saved)).config != w.config {
      CompletedKeeps(c, w.config, t.backup, waiting, granted);
    }
    assert t in waiting + granted && Filed(c, t);
    if Controller.Live(c, t) {
      AnswerInstalled(w, w.config, t, saved);
    }
  }

  lemma AnsweredKeeps(s: System, t: Ticket, saved: bool)
    requires JointInv(s) && Admits(s, Answered(t, saved))
    ensures JointInv(Advance(s, Answered(t, saved)))
  {
    OneEvent(s.world, TakeComplete(CallOf(t), saved));
    ReachedInv(s.world);
    ReachedAfter(s.world, [TakeComplete(CallOf(t), saved)]);
    AnsweredBond(s.control, s.world, t, saved, s.waiting, s.granted);
  }

  // ---------------------------------------------------------------- regions of the controller

  lemma FiledKept(c: Controller.Control, region: Controller.Event, t: Ticket)
    requires ControllerInvariant.Ok(c) && Filed(c, t) && (Recovers(c, region) ==> t.epoch != c.lastEpoch)
    ensures Filed(Controller.Next(c, region), t)
  {
    ControllerInvariant.NextOk(c, region);
    var c' := Controller.Next(c, region);
    if Known(c, t) && Unbroken(c', t.epoch) {
      StaysKnown(c, region, t);
    } else if c.assignment.None? && c'.assignment.Some? {
      AssignedOnlyBy(c, region);
    }
  }

  lemma LiveKept(c: Controller.Control, region: Controller.Event, t: Ticket)
    requires ControllerInvariant.Ok(c) && Filed(c, t) && Controller.Live(Controller.Next(c, region), t)
    ensures Controller.Live(c, t)
  {
    if !Controller.Live(c, t) {
      RevivedIff(c, region, t);
      NeverReissued(c, region, t);
    }
  }

  lemma HandledKept(
    c: Controller.Control, region: Controller.Event, config: Config, config': Config,
    waiting: set<Ticket>, granted: set<Ticket>)
    requires ControllerInvariant.Ok(c) && HandlersOk(c, config, waiting, granted)
    requires Recovers(c, region) ==> forall t :: t in waiting + granted ==> t.epoch != c.lastEpoch
    requires forall t :: Controller.Live(c, t) && Installed(config, t) ==> Installed(config', t)
    ensures HandlersOk(Controller.Next(c, region), config', waiting, granted)
  {
    forall t | t in waiting + granted ensures Filed(Controller.Next(c, region), t) {
      FiledKept(c, region, t);
    }
    forall t | t in granted && Controller.Live(Controller.Next(c, region), t) ensures Installed(config', t) {
      LiveKept(c, region, t);
    }
  }

  /** The bond after a region: both halves, with the region's own changes to the handlers still to come. */
  predicate Bond(c: Controller.Control, config: Config, waiting: set<Ticket>, granted: set<Ticket>)
  {
    Tied(c, config) && HandlersOk(c, config, waiting, granted)
  }

  lemma ElectedBond(c: Controller.Control, eligible: Option<set<string>>, config: Config, waiting: set<Ticket>,
      granted: set<Ticket>)
    requires ControllerInvariant.Ok(c) && Bond(c, config, waiting, granted)
    requires Controller.Elect(c, eligible).1 == Some(Controller.Worker(config.backup, c.lastEpoch + 1))
    ensures Bond(Controller.Elect(c, eligible).0, config.(mode := Promoting(c.lastEpoch + 1, false, None)), waiting,
        granted)
  {
    HandledKept(c, Controller.Elected(eligible), config, config, waiting, granted);
    var c' := Controller.Elect(c, eligible).0;
    forall t | t in granted ensures !Controller.Live(c', t) {
      assert t in waiting + granted && Filed(c, t);
    }
  }

  lemma PickedBond(c: Controller.Control, region: Controller.Event, config: Config, waiting: set<Ticket>,
      granted: set<Ticket>)
    requires ControllerInvariant.Ok(c) && Bond(c, config, waiting, granted) && Picks(c, region)
    ensures Bond(Controller.Next(c, region), Unsynchronized(config), waiting, granted)
  {
    HandledKept(c, region, config, Unsynchronized(config), waiting, granted);
  }

  lemma ReportedBond(
    c: Controller.Control, replica: string, source: string, epoch: int, config: Config,
    waiting: set<Ticket>, granted: set<Ticket>)
    requires ControllerInvariant.Ok(c) && Bond(c, config, waiting, granted)
    requires Controller.ReportSync(c, replica, source, epoch).1.Some?
    ensures var (c', t) := Controller.ReportSync(c, replica, source, epoch);
      Bond(c', config, waiting + {t.value}, granted)
  {
    var (c', t) := Controller.ReportSync(c, replica, source, epoch);
    HandledKept(c, Controller.SyncReported(replica, source, epoch), config, config, waiting, granted);
    TicketsAreKnown(c, replica, source, epoch);
    StripIsTrimmed(replica);
    assert Filed(c', t.value);
  }

  lemma ActivatedBond(c: Controller.Control, t: Ticket, config: Config, waiting: set<Ticket>, granted: set<Ticket>)
    requires ControllerInvariant.Ok(c) && Bond(c, config, waiting, granted) && t in granted && Controller.Live(c, t)
    ensures Bond(Controller.Activate(c, t).0, Unsynchronized(config), waiting, granted)
  {
    HandledKept(c, Controller.Activated(t), config, Unsynchronized(config), waiting, granted);
  }

  // ---------------------------------------------------------------- registration

  /** A ready primary at the newest epoch is the primary that serves. */
  lemma NewestPrimary(w: World, k: string, lastEpoch: int)
    requires Inv(w) && k in w.replicas && EpochOf(w.config) <= lastEpoch
    requires w.replicas[k].role == Primary && w.replicas[k].ready && w.replicas[k].epoch == lastEpoch
    ensures k == w.config.primary && w.replicas[k].backup == w.config.backup
    ensures w.config.epoch == lastEpoch && !w.config.mode.Promoting?
  {
    var r := w.replicas[k];
    assert k != w.config.primary ==> Fenced(w.replicas, r);
    assert r.backup in w.replicas ==> w.replicas[r.backup].epoch <= NewestEpoch(w.config);
  }

  lemma EpochsReached(w: World, k: string, lastEpoch: int)
    requires Inv(w) && k in w.replicas && EpochOf(w.config) <= lastEpoch
    ensures w.replicas[k].epoch <= lastEpoch
  {
  }

  /** What a registration that recovers an assignment said. */
  lemma RecoveredFrom(c: Controller.Control, request: Controller.RegisterRequest)
    requires ControllerInvariant.Ok(c) && c.lastEpoch >= 1 && request.epoch <= c.lastEpoch
    requires Recovers(c, Controller.Registered(request))
    ensures var a := Controller.Register(c, request).0.assignment.value;
      && Strip(request.address) != "" && request.role == "primary" && request.ready && request.epoch == c.lastEpoch
      && a.primary == Strip(request.address) && a.epoch == c.lastEpoch && a.candidate.None?
      && (a.status == Controller.Ready ==> a.backup == Some(Strip(request.backupAddress)))
      && (a.status == Controller.Ready || a.status == Controller.Reprotecting)
  {
  }

  lemma RecoveredBond(w: World, c: Controller.Control, request: Controller.RegisterRequest, waiting: set<Ticket>,
      granted: set<Ticket>)
    requires Inv(w) && ControllerInvariant.Ok(c) && Bond(c, w.config, waiting, granted)
    requires Recovers(c, Controller.Registered(request)) && Strip(request.address) in w.replicas
    requires Describes(w.replicas[Strip(request.address)], request)
    requires forall t :: t in waiting + granted ==> t.epoch != c.lastEpoch
    ensures var c' := Controller.Register(c, request).0;
      Bond(c', if IsReady(c') then Unsynchronized(w.config) else w.config, waiting, granted)
  {
    var k := Strip(request.address);
    EpochsReached(w, k, c.lastEpoch);
    RecoveredFrom(c, request);
    NewestPrimary(w, k, c.lastEpoch);
    HandledKept(c, Controller.Registered(request), w.config, w.config, waiting, granted);
    HandledKept(c, Controller.Registered(request), w.config, Unsynchronized(w.config), waiting, granted);
  }

  // ---------------------------------------------------------------- the other regions

  /** Neither a choice nor an election nor a recovery, and not the end of a synchronization. */
  predicate Plain(c: Controller.Control, region: Controller.Event)
  {
    && !Picks(c, region) && !BecomesReady(c, region) && !Recovers(c, region)
    && Controller.Next(c, region).lastEpoch == c.lastEpoch
    && (region.Elected? ==> Controller.Elect(c, region.eligible).1.None?)
  }

  lemma PlainBond(c: Controller.Control, region: Controller.Event, config: Config, waiting: set<Ticket>,
      granted: set<Ticket>)
    requires ControllerInvariant.Ok(c) && Bond(c, config, waiting, granted) && Plain(c, region)
    ensures Bond(Controller.Next(c, region), config, waiting, granted)
  {
    var c' := Controller.Next(c, region);
    HandledKept(c, region, config, config, waiting, granted);
    if c'.assignment.Some? {
      if c.assignment.None? {
        AssignedOnlyBy(c, region);
      }
      PrimaryKept(c, region);
      if c'.assignment.value.status != Controller.Ready && Controller.Expected(c'.assignment.value).Some? {
        ExpectedKept(c, region, Controller.Expected(c'.assignment.value).value);
      }
      if IsReady(c') {
        ReadyKept(c, region);
      }
    }
  }

  // ---------------------------------------------------------------- every region, every step

  /** The bond survives the end of handlers. */
  lemma FewerHandlers(c: Controller.Control, config: Config, waiting: set<Ticket>, granted: set<Ticket>, w: set<Ticket>,
      g: set<Ticket>)
    requires Bond(c, config, waiting, granted) && w <= waiting && g <= granted
    ensures Bond(c, config, w, g)
  {
  }

  lemma NothingHappens(w: World)
    ensures Run(w, []) && After(w, []) == w
  {
  }

  ghost predicate Kept(s: System, act: Act)
    requires Admits(s, act)
  {
    var s' := Advance(s, act);
    Bond(s'.control, s'.world.config, s'.waiting, s'.granted)
  }

  lemma ElectedKeeps(s: System, eligible: Option<set<string>>)
    requires JointInv(s) && Admits(s, Rule(Controller.Elected(eligible)))
        && Controller.Elect(s.control, eligible).1.Some?
    ensures Kept(s, Rule(Controller.Elected(eligible)))
  {
    OneEvent(s.world, StartPromotion(Controller.Elect(s.control, eligible).1.value.epoch));
    ElectedBond(s.control, eligible, s.world.config, s.waiting, s.granted);
  }

  lemma ReportedKeeps(s: System, replica: string, source: string, epoch: int)
    requires JointInv(s) && Admits(s, Rule(Controller.SyncReported(replica, source, epoch)))
    requires Controller.ReportSync(s.control, replica, source, epoch).1.Some?
    ensures Kept(s, Rule(Controller.SyncReported(replica, source, epoch)))
  {
    OneEvent(s.world, Call(Controller.ReportSync(s.control, replica, source, epoch).1.value.backup));
    ReportedBond(s.control, replica, source, epoch, s.world.config, s.waiting, s.granted);
  }

  /** The regions that end the current synchronization. */
  lemma DroppedKeeps(s: System, region: Controller.Event)
    requires Admits(s, Rule(region)) && Effect(s.control, region) == [DropSync]
    requires Bond(Controller.Next(s.control, region), Unsynchronized(s.world.config), s.waiting, s.granted)
    requires !region.SyncReported?
    ensures Kept(s, Rule(region))
  {
    OneEvent(s.world, DropSync);
    var s' := Advance(s, Rule(region));
    assert s'.world.config == Unsynchronized(s.world.config);
    FewerHandlers(s'.control, s'.world.config, s.waiting, s.granted, s'.waiting, s'.granted);
  }

  lemma PickedKeeps(s: System, region: Controller.Event)
    requires JointInv(s) && Admits(s, Rule(region)) && Picks(s.control, region)
    ensures Kept(s, Rule(region))
  {
    PickedBond(s.control, region, s.world.config, s.waiting, s.granted);
    DroppedKeeps(s, region);
  }

  lemma ActivatedKeeps(s: System, t: Ticket)
    requires JointInv(s) && Admits(s, Rule(Controller.Activated(t))) && BecomesReady(s.control, Controller.Activated(t))
    ensures Kept(s, Rule(Controller.Activated(t)))
  {
    ActivatedBond(s.control, t, s.world.config, s.waiting, s.granted);
    DroppedKeeps(s, Controller.Activated(t));
  }

  lemma RecoveredUnreadyKeeps(s: System, request: Controller.RegisterRequest)
    requires JointInv(s) && Admits(s, Rule(Controller.Registered(request)))
    requires Recovers(s.control, Controller.Registered(request))
    requires !BecomesReady(s.control, Controller.Registered(request))
    requires Bond(Controller.Register(s.control, request).0, s.world.config, s.waiting, s.granted)
    ensures Kept(s, Rule(Controller.Registered(request)))
  {
    NothingHappens(s.world);
  }

  lemma RecoveredKeeps(s: System, request: Controller.RegisterRequest)
    requires JointInv(s) && Admits(s, Rule(Controller.Registered(request)))
    requires Recovers(s.control, Controller.Registered(request))
    ensures Kept(s, Rule(Controller.Registered(request)))
  {
    ReachedInv(s.world);
    RecoveredBond(s.world, s.control, request, s.waiting, s.granted);
    if BecomesReady(s.control, Controller.Registered(request)) {
      DroppedKeeps(s, Controller.Registered(request));
    } else {
      RecoveredUnreadyKeeps(s, request);
    }
  }

  /** A registration within the known epochs makes an assignment ready only by recovering it. */
  lemma RegistrationInTime(c: Controller.Control, request: Controller.RegisterRequest)
    requires ControllerInvariant.Ok(c) && c.lastEpoch >= 1
    requires Strip(request.address) != "" ==> request.epoch <= c.lastEpoch
    ensures Controller.Register(c, request).0.lastEpoch == c.lastEpoch
    ensures BecomesReady(c, Controller.Registered(request)) ==> Recovers(c, Controller.Registered(request))
  {
    if c.assignment.Some? && Strip(request.address) != "" {
      RegistrationKeeps(c, request);
    }
  }

  lemma OthersArePlain(s: System, region: Controller.Event)
    requires JointInv(s) && Admits(s, Rule(region))
    requires !Picks(s.control, region) && !BecomesReady(s.control, region) && !Recovers(s.control, region)
    requires region.Elected? ==> Controller.Elect(s.control, region.eligible).1.None?
    ensures Plain(s.control, region)
  {
    if region.Registered? {
      var k := Strip(region.request.address);
      if k in s.world.replicas {
        ReachedInv(s.world);
        EpochsReached(s.world, k, s.control.lastEpoch);
      }
      RegistrationInTime(s.control, region.request);
    } else if Controller.Next(s.control, region).lastEpoch != s.control.lastEpoch {
      LastEpochRises(s.control, region);
    }
  }

  lemma PlainKeeps(s: System, region: Controller.Event)
    requires JointInv(s) && Admits(s, Rule(region)) && Plain(s.control, region)
    requires region.SyncReported? ==>
      Controller.ReportSync(s.control, region.replica, region.source, region.epoch).1.None?
    ensures Kept(s, Rule(region))
  {
    NothingHappens(s.world);
    PlainBond(s.control, region, s.world.config, s.waiting, s.granted);
    FewerHandlers(Controller.Next(s.control, region), s.world.config, s.waiting, s.granted, s.waiting,
        Granted(s, Rule(region)));
  }

  lemma RuleKeeps(s: System, region: Controller.Event)
    requires JointInv(s) && Admits(s, Rule(region))
    ensures Kept(s, Rule(region))
  {
    if region.Elected? && Controller.Elect(s.control, region.eligible).1.Some? {
      ElectedKeeps(s, region.eligible);
    } else if region.SyncReported?
              && Controller.ReportSync(s.control, region.replica, region.source, region.epoch).1.Some? {
      ReportedKeeps(s, region.replica, region.source, region.epoch);
    } else if Picks(s.control, region) {
      PickedKeeps(s, region);
    } else if Recovers(s.control, region) {
      RecoveredKeeps(s, region.request);
    } else if BecomesReady(s.control, region) {
      ReadyByActivation(s, region);
      ActivatedKeeps(s, region.ticket);
    } else {
      OthersArePlain(s, region);
      PlainKeeps(s, region);
    }
  }

  lemma ReadyByActivation(s: System, region: Controller.Event)
    requires JointInv(s) && Admits(s, Rule(region)) && BecomesReady(s.control, region) && !Recovers(s.control, region)
    ensures region.Activated?
  {
    BecomesReadyOnlyBy(s.control, region);
    if region.Registered? {
      var k := Strip(region.request.address);
      if k in s.world.replicas {
        ReachedInv(s.world);
        EpochsReached(s.world, k, s.control.lastEpoch);
      }
      RegistrationInTime(s.control, region.request);
    }
  }

  /** Every step of the two machines keeps the bond. */
  lemma AdvanceInv(s: System, act: Act)
    requires JointInv(s) && Admits(s, act)
    ensures JointInv(Advance(s, act))
  {
    match act
    case Store(event) => StoreKeeps(s, event);
    case Fetched(target) => FetchedKeeps(s, target);
    case Answered(t, saved) => AnsweredKeeps(s, t, saved);
    case Dropped(t) => NothingHappens(s.world);
    case Rule(region) =>
      ControllerInvariant.NextOk(s.control, region);
      ReachedAfter(s.world, Effect(s.control, region));
      RuleKeeps(s, region);
  }

  lemma {:induction false} StepsInv(s: System, acts: seq<Act>)
    requires JointInv(s) && Steps(s, acts)
    ensures JointInv(Final(s, acts))
    decreases |acts|
  {
    if acts != [] {
      AdvanceInv(s, acts[0]);
      StepsInv(Advance(s, acts[0]), acts[1..]);
    }
  }

  lemma StartInv(s: System)
    requires JointStart(s)
    ensures JointInv(s)
  {
    assert Run(s.world, []) && After(s.world, []) == s.world;
  }

  lemma ReachableInv(s: System)
    requires Reachable(s)
    ensures JointInv(s)
  {
    var start, acts :| JointStart(start) && Steps(start, acts) && Final(start, acts) == s;
    StartInv(start);
    StepsInv(start, acts);
  }
}
