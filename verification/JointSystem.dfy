/**
 * The controller and the replicas as one machine: each region of the controller that concerns the replicas takes
 * the cluster along, and the calls that connect the two may be lost, late or answered in any order.
 */
module JointSystem {
  import opened Text
  import opened Replica
  import opened Cluster
  import opened Durability
  import Controller
  import ControllerInvariant
  import StaleContinuations

  type Ticket = Controller.Ticket

  /**
   * `waiting` are the completion handlers that validated a report and wait for the primary's answer, `granted` those
   * that got it and have not yet rechecked the assignment.
   */
  datatype System = System(
    control: Controller.Control, world: World, waiting: set<Ticket>, granted: set<Ticket>)

  datatype Act =
    | Store(event: Event)
    | Rule(region: Controller.Event)
    | Fetched(target: string)
    | Answered(ticket: Ticket, saved: bool)
    | Dropped(ticket: Ticket)

  function CallOf(t: Ticket): Completion
  {
    Completion(t.primary, t.backup, t.epoch)
  }

  /** The controller waits for this replica to synchronize. */
  predicate Expects(c: Controller.Control, target: string)
  {
    && c.assignment.Some? && c.assignment.value.status != Controller.Ready
    && Controller.Expected(c.assignment.value) == Some(target)
  }

  /** The region designates the next synchronization target. */
  predicate Picks(c: Controller.Control, region: Controller.Event)
  {
    match region
    case ReplacementSought(primary, epoch) => Controller.PickReplacement(c, primary, epoch).1.Some?
    case BackupSought(primary, epoch) => Controller.PickBackup(c, primary, epoch).1.Chosen?
    case _ => false
  }

  predicate BecomesReady(c: Controller.Control, region: Controller.Event)
  {
    !StaleContinuations.IsReady(c) && StaleContinuations.IsReady(Controller.Next(c, region))
  }

  /** What a region of the controller means for the cluster. */
  function Effect(c: Controller.Control, region: Controller.Event): seq<Event>
  {
    match region
    case Elected(eligible) =>
      (match Controller.Elect(c, eligible).1
       case Some(worker) => [StartPromotion(worker.epoch)]
       case None => [])
    case SyncReported(replica, source, epoch) =>
      (match Controller.ReportSync(c, replica, source, epoch).1
       case Some(ticket) => [Call(ticket.backup)]
       case None => [])
    case _ => if Picks(c, region) || BecomesReady(c, region) then [DropSync] else []
  }

  function Effects(s: System, act: Act): seq<Event>
  {
    match act
    case Store(event) => [event]
    case Rule(region) => Effect(s.control, region)
    case Fetched(target) =>
      if s.world.config.mode.Ready? then [StartReprotection, Fetch(target)] else [Fetch(target)]
    case Answered(ticket, saved) => [TakeComplete(CallOf(ticket), saved)]
    case Dropped(_) => []
  }

  /** The events of the cluster in which the controller has no part. */
  predicate Autonomous(event: Event)
  {
    || event.Delay? || event.Late?
    || event.Submit? || event.SendPrepare? || event.Decide? || event.SendCommit? || event.SendAbort? || event.Restart?
    || event.SendBegin? || event.FetchAside? || event.Install? || event.TakeComplete? || event.EndCall?
  }

  /**
   * What the programs allow: any region at any time, with the arguments its predecessor left for it. A registration
   * may be out of date, so the epoch it reports is one the replica has reached.
   */
  predicate Possible(s: System, act: Act)
  {
    match act
    case Store(event) => Autonomous(event)
    case Rule(region) =>
      (match region
       case Activated(ticket) => ticket in s.granted
       case SyncReported(replica, _, _) => Strip(replica) in s.world.replicas
       case Registered(request) =>
         var k := Strip(request.address);
         k == "" || (k in s.world.replicas && request.epoch <= s.world.replicas[k].epoch)
       case _ => true)
    case Fetched(target) => Expects(s.control, target)
    case Answered(ticket, saved) =>
      && ticket in s.waiting && ticket.primary in s.world.replicas
      && OnComplete(s.world.replicas[ticket.primary], ticket.epoch, ticket.backup, saved).1
    case Dropped(_) => true
  }

  /** The registration describes the replica as it is; what a backup announces about its readiness is left open. */
  predicate Describes(r: State, request: Controller.RegisterRequest)
  {
    && request.epoch == r.epoch
    && request.role == (if r.role == Primary then "primary" else "backup")
    && Strip(request.backupAddress) == r.backup
    && (r.role == Primary && request.ready ==> r.ready)
  }

  predicate Recovers(c: Controller.Control, region: Controller.Event)
  {
    region.Registered? && c.assignment.None? && Controller.Next(c, region).assignment.Some?
  }

  /**
   * The environment's part beside `Benign`: who is elected is the designated backup and no promotion is unfinished;
   * a registration that recovers an assignment is up to date when it arrives, and no handler of its epoch is left.
   */
  predicate Orderly(s: System, act: Act)
  {
    match act
    case Rule(region) =>
      (match region
       case Elected(eligible) =>
         var elected := Controller.Elect(s.control, eligible).1;
         elected.Some? ==> elected.value.primary == s.world.config.backup && !s.world.config.mode.Promoting?
       case Registered(request) =>
         Recovers(s.control, region) ==>
           && Strip(request.address) in s.world.replicas
           && Describes(s.world.replicas[Strip(request.address)], request)
           && (forall t :: t in s.waiting + s.granted ==> t.epoch != s.control.lastEpoch)
       case _ => true)
    case _ => true
  }

  ghost predicate Admits(s: System, act: Act)
  {
    Possible(s, act) && Orderly(s, act) && Run(s.world, Effects(s, act))
  }

  function Control(s: System, act: Act): Controller.Control
  {
    if act.Rule? then Controller.Next(s.control, act.region) else s.control
  }

  function Waiting(s: System, act: Act): set<Ticket>
  {
    match act
    case Rule(region) =>
      (match region
       case SyncReported(replica, source, epoch) =>
         (match Controller.ReportSync(s.control, replica, source, epoch).1
          case Some(ticket) => s.waiting + {ticket}
          case None => s.waiting)
       case _ => s.waiting)
    case Answered(ticket, _) => s.waiting - {ticket}
    case Dropped(ticket) => s.waiting - {ticket}
    case _ => s.waiting
  }

  function Granted(s: System, act: Act): set<Ticket>
  {
    match act
    case Rule(region) => if region.Activated? then s.granted - {region.ticket} else s.granted
    case Answered(ticket, _) => s.granted + {ticket}
    case Dropped(ticket) => s.granted - {ticket}
    case _ => s.granted
  }

  ghost function Advance(s: System, act: Act): System
    requires Admits(s, act)
  {
    System(Control(s, act), After(s.world, Effects(s, act)), Waiting(s, act), Granted(s, act))
  }

  /** The controller's ready assignment is the pair that serves. */
  predicate Agrees(c: Controller.Control, config: Config)
  {
    && config.mode.Ready?
    && StaleContinuations.IsReady(c)
    && c.assignment.value.primary == config.primary
    && c.assignment.value.backup == Some(config.backup)
    && c.assignment.value.epoch == config.epoch
  }

  /** A freshly activated pair under a controller that knows it or knows no assignment, and no handler at work. */
  predicate JointStart(s: System)
  {
    && Initial(s.world)
    && ControllerInvariant.Ok(s.control) && s.control.lastEpoch == s.world.config.epoch
    && (s.control.assignment.Some? ==> Agrees(s.control, s.world.config))
    && s.waiting == {} && s.granted == {}
  }

  ghost predicate Steps(s: System, acts: seq<Act>)
    decreases |acts|
  {
    acts == [] || (Admits(s, acts[0]) && Steps(Advance(s, acts[0]), acts[1..]))
  }

  ghost function Final(s: System, acts: seq<Act>): System
    requires Steps(s, acts)
    decreases |acts|
  {
    if acts == [] then s else Final(Advance(s, acts[0]), acts[1..])
  }

  ghost predicate Reachable(s: System)
  {
    exists start, acts :: JointStart(start) && Steps(start, acts) && Final(start, acts) == s
  }
}
