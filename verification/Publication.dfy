/**
 * The controller over replicas of which only the configuration matters, from its very start and with any elections:
 * what it publishes is what the primary was configured to.
 */
module Publication {
  import opened Text
  import opened AuctionDomain
  import opened Replica
  import opened Cluster
  import opened StaleContinuations
  import opened JointSystem
  import opened JointInvariant
  import Controller
  import ControllerInvariant

  /** `begins` and `calls` are the promotions and completions the controller asked for, which may arrive at any time. */
  datatype Machine = Machine(
    control: Controller.Control, replicas: map<string, State>, begins: set<Controller.Worker>,
    calls: set<Completion>, waiting: set<Ticket>, granted: set<Ticket>)

  datatype Move =
    | Region(region: Controller.Event)
    | BeginTaken(worker: Controller.Worker, saved: bool)
    | CallTaken(call: Completion, saved: bool)
    | Replied(ticket: Ticket, saved: bool)
    | Ended(ticket: Ticket)
    | Installed(target: string, full: FullState, epoch: int, saved: bool)
    | Restarted(node: string)
    | Mutated(node: string, after: State)

  /** What the handlers of mutations leave alone. */
  predicate SameOffice(r: State, r': State)
  {
    r'.role == r.role && r'.ready == r.ready && r'.epoch == r.epoch && r'.backup == r.backup
  }

  /** Every handler of a mutation does, at the backup and at the primary. */
  lemma PrepareKeepsOffice(r: State, m: Prepare, saved: bool)
    ensures SameOffice(r, OnPrepare(r, m, saved).0)
  {
  }

  lemma ResolutionsKeepOffice(r: State, m: Decision, saved: bool)
    ensures SameOffice(r, OnCommit(r, m, saved).0) && SameOffice(r, OnAbort(r, m, saved).0)
  {
  }

  lemma DecisionsKeepOffice(
    r: State, id: string, candidate: Auction, record: Record, reply: Option<DecisionReply>, saved: bool)
    ensures SameOffice(r, RecordDecision(r, id, candidate, record, saved).0)
    ensures SameOffice(r, ClearPending(r, id, reply, saved).0)
  {
  }

  predicate Allows(m: Machine, move: Move)
  {
    match move
    case Region(region) => region.Activated? ==> region.ticket in m.granted
    case BeginTaken(worker, _) => worker in m.begins && worker.primary in m.replicas
    case CallTaken(call, _) => call in m.calls && call.primary in m.replicas
    case Replied(ticket, saved) =>
      && ticket in m.waiting && ticket.primary in m.replicas
      && OnComplete(m.replicas[ticket.primary], ticket.epoch, ticket.backup, saved).1
    case Ended(_) => true
    case Installed(target, _, _, _) => target in m.replicas
    case Restarted(node) => node in m.replicas
    case Mutated(node, after) => node in m.replicas && SameOffice(m.replicas[node], after)
  }

  /** The completion reconfigures the assigned primary for a replica the controller does not wait for. */
  predicate Overtaken(m: Machine, call: Completion, saved: bool)
    requires call.primary in m.replicas
  {
    && m.control.assignment.Some? && m.control.assignment.value.primary == call.primary
    && m.control.assignment.value.epoch == call.epoch && !Expects(m.control, Strip(call.target))
    && OnComplete(m.replicas[call.primary], call.epoch, call.target, saved).0 != m.replicas[call.primary]
  }

  /** The region makes a new assignment ready. */
  predicate Publishes(c: Controller.Control, region: Controller.Event)
  {
    IsReady(Controller.Next(c, region)) && Controller.Next(c, region).assignment != c.assignment
  }

  /**
   * No overtaken completion takes effect; a registration that makes an assignment ready is up to date, and no handler
   * of an epoch is left when an assignment is recovered at it. Elections are as they come.
   */
  predicate Fair(m: Machine, move: Move)
    requires Allows(m, move)
  {
    match move
    case Region(region) =>
      && (region.Registered? && Publishes(m.control, region) ==>
            && Strip(region.request.address) in m.replicas
            && Describes(m.replicas[Strip(region.request.address)], region.request))
      && (Recovers(m.control, region) ==>
            forall t :: t in m.waiting + m.granted ==> t.epoch != m.control.lastEpoch)
    case CallTaken(call, saved) => !Overtaken(m, call, saved)
    case Replied(ticket, saved) => !Overtaken(m, CallOf(ticket), saved)
    case _ => true
  }

  function Put(m: Machine, k: string, r: State): Machine
  {
    m.(replicas := m.replicas[k := r])
  }

  function DoRegion(m: Machine, region: Controller.Event): Machine
  {
    var after := m.(control := Controller.Next(m.control, region));
    match region
    case Elected(eligible) =>
      (match Controller.Elect(m.control, eligible).1
       case Some(worker) => after.(begins := m.begins + {worker})
       case None => after)
    case SyncReported(replica, source, epoch) =>
      (match Controller.ReportSync(m.control, replica, source, epoch).1
       case Some(ticket) => after.(calls := m.calls + {CallOf(ticket)}, waiting := m.waiting + {ticket})
       case None => after)
    case Activated(ticket) => after.(granted := m.granted - {ticket})
    case _ => after
  }

  function Moved(m: Machine, move: Move): Machine
    requires Allows(m, move)
  {
    match move
    case Region(region) => DoRegion(m, region)
    case BeginTaken(worker, saved) =>
      Put(m, worker.primary, OnBegin(m.replicas[worker.primary], worker.epoch, saved).0)
    case CallTaken(call, saved) =>
      Put(m, call.primary, OnComplete(m.replicas[call.primary], call.epoch, call.target, saved).0)
    case Replied(t, saved) =>
      Put(m, t.primary, OnComplete(m.replicas[t.primary], t.epoch, t.backup, saved).0).(
        waiting := m.waiting - {t}, granted := m.granted + {t})
    case Ended(t) => m.(waiting := m.waiting - {t}, granted := m.granted - {t})
    case Installed(target, full, epoch, saved) => Put(m, target, OnInstall(m.replicas[target], full, epoch, saved).0)
    case Restarted(node) => Put(m, node, Reload(m.replicas[node]))
    case Mutated(node, after) => Put(m, node, after)
  }

  // ---------------------------------------------------------------- the invariant

  /** The replica is a ready primary of this epoch with this backup. */
  predicate Configured(replicas: map<string, State>, primary: string, epoch: int, backup: string)
  {
    && primary in replicas && replicas[primary].role == Primary && replicas[primary].ready
    && replicas[primary].epoch == epoch && replicas[primary].backup == backup
  }

  predicate BeginsOk(begins: set<Controller.Worker>, lastEpoch: int)
  {
    forall worker :: worker in begins ==> worker.epoch <= lastEpoch
  }

  predicate TicketsOk(c: Controller.Control, replicas: map<string, State>, waiting: set<Ticket>, granted: set<Ticket>)
  {
    && (forall t :: t in waiting + granted ==> Filed(c, t) && t.backup != "")
    && (forall t :: t in granted && Controller.Live(c, t) ==> Configured(replicas, t.primary, t.epoch, t.backup))
  }

  /** What a ready assignment says of its primary. */
  predicate PublishedOk(c: Controller.Control, replicas: map<string, State>)
  {
    IsReady(c) ==>
      var a := c.assignment.value;
      a.backup.Some? && Configured(replicas, a.primary, a.epoch, a.backup.value)
  }

  predicate MachineInv(m: Machine)
  {
    && ControllerInvariant.Ok(m.control)
    && BeginsOk(m.begins, m.control.lastEpoch)
    && TicketsOk(m.control, m.replicas, m.waiting, m.granted)
    && PublishedOk(m.control, m.replicas)
  }

  // ---------------------------------------------------------------- the replicas' moves

  /** The assigned primary, if it is configured as the controller may come to rely on, stays so. */
  predicate Keeps(m: Machine, k: string, r: State)
  {
    && m.control.assignment.Some? && m.control.assignment.value.primary == k && k in m.replicas
    && m.replicas[k].role == Primary && m.replicas[k].ready && m.replicas[k].epoch == m.control.lastEpoch
    && (IsReady(m.control) ==> m.control.assignment.value.backup == Some(m.replicas[k].backup))
    && (!IsReady(m.control) ==> Expects(m.control, m.replicas[k].backup))
    ==> Configured(m.replicas[k := r], k, m.control.lastEpoch, m.replicas[k].backup)
  }

  lemma PutInv(m: Machine, k: string, r: State)
    requires MachineInv(m) && Keeps(m, k, r)
    ensures MachineInv(Put(m, k, r))
  {
  }

  /** Every move of a replica keeps the primary the controller relies on, whatever its arguments. */
  lemma ReplicaMoveInv(m: Machine, move: Move)
    requires MachineInv(m) && Allows(m, move) && Fair(m, move)
    requires move.BeginTaken? || move.CallTaken? || move.Installed? || move.Restarted? || move.Mutated?
    ensures MachineInv(Moved(m, move))
  {
    match move
    case BeginTaken(worker, saved) =>
      PutInv(m, worker.primary, OnBegin(m.replicas[worker.primary], worker.epoch, saved).0);
    case CallTaken(call, saved) =>
      PutInv(m, call.primary, OnComplete(m.replicas[call.primary], call.epoch, call.target, saved).0);
    case Installed(target, full, epoch, saved) =>
      PutInv(m, target, OnInstall(m.replicas[target], full, epoch, saved).0);
    case Restarted(node) => PutInv(m, node, Reload(m.replicas[node]));
    case Mutated(node, after) => PutInv(m, node, after);
  }

  /** An answer means that the primary is configured with the handler's backup. */
  lemma AnsweredInv(m: Machine, t: Ticket, saved: bool)
    requires MachineInv(m) && Allows(m, Replied(t, saved)) && Fair(m, Replied(t, saved))
    ensures MachineInv(Moved(m, Replied(t, saved)))
  {
    assert t in m.waiting + m.granted && Filed(m.control, t);
    PutInv(m, t.primary, OnComplete(m.replicas[t.primary], t.epoch, t.backup, saved).0);
  }

  // ---------------------------------------------------------------- the controller's regions

  lemma TicketsKept(m: Machine, region: Controller.Event)
    requires MachineInv(m) && Allows(m, Region(region)) && Fair(m, Region(region))
    ensures TicketsOk(Controller.Next(m.control, region), m.replicas, m.waiting, m.granted)
  {
    forall t | t in m.waiting + m.granted ensures Filed(Controller.Next(m.control, region), t) {
      FiledKept(m.control, region, t);
    }
    forall t | t in m.granted && Controller.Live(Controller.Next(m.control, region), t)
      ensures Configured(m.replicas, t.primary, t.epoch, t.backup)
    {
      LiveKept(m.control, region, t);
    }
  }

  lemma ReportedTicket(c: Controller.Control, replica: string, source: string, epoch: int)
    requires ControllerInvariant.Ok(c) && Controller.ReportSync(c, replica, source, epoch).1.Some?
    ensures var (c', t) := Controller.ReportSync(c, replica, source, epoch); Filed(c', t.value) && t.value.backup != ""
  {
    TicketsAreKnown(c, replica, source, epoch);
    StripIsTrimmed(replica);
  }

  /** A ready assignment was ready before, comes from an answered handler, or from a registration that is up to date. */
  lemma PublishedKept(m: Machine, region: Controller.Event)
    requires MachineInv(m) && Allows(m, Region(region)) && Fair(m, Region(region))
    ensures PublishedOk(Controller.Next(m.control, region), m.replicas)
  {
    var c, c' := m.control, Controller.Next(m.control, region);
    if Publishes(c, region) {
      PublishedBy(c, region);
    }
  }

  /** An assignment is made ready by the handler of its attempt or by a registration of a ready primary. */
  lemma PublishedBy(c: Controller.Control, region: Controller.Event)
    requires ControllerInvariant.Ok(c) && Publishes(c, region)
    ensures var a := Controller.Next(c, region).assignment.value;
      || (&& region.Activated? && Controller.Live(c, region.ticket)
          && a.primary == region.ticket.primary && a.epoch == region.ticket.epoch
          && a.backup == Some(region.ticket.backup))
      || (&& region.Registered? && region.request.role == "primary" && region.request.ready
          && a.primary == Strip(region.request.address) && a.epoch == region.request.epoch
          && a.backup == Some(Strip(region.request.backupAddress)))
  {
  }

  lemma RegionInv(m: Machine, region: Controller.Event)
    requires MachineInv(m) && Allows(m, Region(region)) && Fair(m, Region(region))
    ensures MachineInv(Moved(m, Region(region)))
  {
    ControllerInvariant.NextOk(m.control, region);
    TicketsKept(m, region);
    PublishedKept(m, region);
    if region.SyncReported? && Controller.ReportSync(m.control, region.replica, region.source, region.epoch).1.Some? {
      ReportedTicket(m.control, region.replica, region.source, region.epoch);
    } else if region.Elected? {
      ControllerInvariant.ElectionDecides(m.control, region.eligible);
    }
  }

  // ---------------------------------------------------------------- every run

  ghost predicate FairRun(m: Machine, moves: seq<Move>)
    decreases |moves|
  {
    moves == [] || (Allows(m, moves[0]) && Fair(m, moves[0]) && FairRun(Moved(m, moves[0]), moves[1..]))
  }

  ghost function AtEnd(m: Machine, moves: seq<Move>): Machine
    requires FairRun(m, moves)
    decreases |moves|
  {
    if moves == [] then m else AtEnd(Moved(m, moves[0]), moves[1..])
  }

  lemma MoveInv(m: Machine, move: Move)
    requires MachineInv(m) && Allows(m, move) && Fair(m, move)
    ensures MachineInv(Moved(m, move))
  {
    match move
    case Region(region) => RegionInv(m, region);
    case Replied(t, saved) => AnsweredInv(m, t, saved);
    case Ended(_) =>
    case _ => ReplicaMoveInv(m, move);
  }

  lemma {:induction false} MovesInv(m: Machine, moves: seq<Move>)
    requires MachineInv(m) && FairRun(m, moves)
    ensures MachineInv(AtEnd(m, moves))
    decreases |moves|
  {
    if moves != [] {
      MoveInv(m, moves[0]);
      MovesInv(Moved(m, moves[0]), moves[1..]);
    }
  }

  /** A controller that was just started, over replicas in any state. */
  function Booted(replicas: map<string, State>): Machine
  {
    Machine(Controller.Started(), replicas, {}, {}, {}, {})
  }

  /**
   * From the start of the controller, over replicas in any state, through any elections, retried ones included: the
   * primary it publishes is ready at the published epoch, with the backup the controller believes in.
   */
  lemma PublishedIsConfigured(replicas: map<string, State>, moves: seq<Move>)
    requires FairRun(Booted(replicas), moves)
    ensures var m := AtEnd(Booted(replicas), moves);
      Controller.GetPrimary(m.control).Some? ==>
        var Worker(primary, epoch) := Controller.GetPrimary(m.control).value;
        && m.control.assignment.value.backup.Some? && m.control.assignment.value.backup.value != primary
        && Configured(m.replicas, primary, epoch, m.control.assignment.value.backup.value)
  {
    MovesInv(Booted(replicas), moves);
  }

  /** While a primary is published, a completion leaves that so exactly when it is not an overtaken one. */
  lemma CompletionKeepsPublishedIff(m: Machine, call: Completion, saved: bool)
    requires MachineInv(m) && IsReady(m.control) && Allows(m, CallTaken(call, saved))
    requires Trimmed(m.control.assignment.value.backup.value)
    ensures PublishedOk(m.control, Moved(m, CallTaken(call, saved)).replicas) <==> !Overtaken(m, call, saved)
  {
  }
}
