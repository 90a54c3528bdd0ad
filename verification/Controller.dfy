/** The controller as a value: each function is one lock-held region; calls to replicas happen in between. */
module Controller {
  import opened Text

  datatype Status = Promoting | Reprotecting | Ready

  /** `synced` with its epoch is what makes a replica eligible for promotion. */
  datatype Node = Node(synced: bool, syncedEpoch: int, failures: nat)

  datatype Assignment = Assignment(
    primary: string, epoch: int, status: Status, backup: Option<string>, candidate: Option<string>,
    generation: int, eligible: set<string>, attempted: set<string>)

  datatype Control = Control(
    nodes: map<string, Node>, assignment: Option<Assignment>, lastEpoch: int, electing: bool)

  type Nodes = map<string, Node>

  function Unsynced(node: Node): Node
  {
    node.(synced := false, syncedEpoch := 0)
  }

  function Unsync(nodes: Nodes, address: string): Nodes
  {
    if address in nodes then nodes[address := Unsynced(nodes[address])] else nodes
  }

  function UnsyncAll(nodes: Nodes): Nodes
  {
    map k | k in nodes :: Unsynced(nodes[k])
  }

  /** The assignment a continuation started for, if it is still the current one. */
  predicate Matches(c: Control, primary: string, epoch: int, status: Status)
  {
    && c.assignment.Some?
    && c.assignment.value.primary == primary
    && c.assignment.value.epoch == epoch
    && c.assignment.value.status == status
  }

  // ---------------------------------------------------------------- registration

  datatype RegisterRequest = RegisterRequest(
    address: string, role: string, epoch: int, ready: bool, backupAddress: string)

  datatype RegisterReply = RegisterReply(success: bool, isPrimary: bool, epoch: int)

  /** The replacement worker to start once the lock is released. */
  datatype Worker = Worker(primary: string, epoch: int)

  function ReportedEpoch(request: RegisterRequest): int
  {
    if request.epoch > 0 then request.epoch else 0
  }

  function RegisteredNode(c: Control, address: string, request: RegisterRequest): Node
  {
    var reported := ReportedEpoch(request);
    var synced :=
      && request.role == "backup" && request.ready && reported > 0
      && (|| c.assignment.None?
          || c.assignment.value.backup == Some(address)
          || c.assignment.value.candidate == Some(address));
    Node(synced, if synced then reported else 0, 0)
  }

  /** A higher reported epoch invalidates the assignment. */
  function Invalidate(c: Control, reported: int): Control
  {
    var outdated := c.assignment.Some? && reported > c.assignment.value.epoch;
    c.(assignment := if outdated then None else c.assignment,
       electing := if outdated then false else c.electing,
       lastEpoch := if reported > c.lastEpoch then reported else c.lastEpoch)
  }

  /** A ready primary at the newest epoch whose backup is registered; `Protected` asks for its proof too. */
  predicate Recoverable(c: Control, address: string, request: RegisterRequest)
  {
    var reported := ReportedEpoch(request);
    && request.role == "primary" && reported > 0 && reported == c.lastEpoch && request.ready
    && Strip(request.backupAddress) != "" && Strip(request.backupAddress) != address
    && Strip(request.backupAddress) in c.nodes
  }

  predicate Protected(c: Control, address: string, request: RegisterRequest)
  {
    && Recoverable(c, address, request)
    && c.nodes[Strip(request.backupAddress)].synced
    && c.nodes[Strip(request.backupAddress)].syncedEpoch == ReportedEpoch(request)
  }

  function Recover(c: Control, address: string, request: RegisterRequest): Control
  {
    var reported := ReportedEpoch(request);
    if c.assignment.Some? then c
    else if Protected(c, address, request) then
      c.(assignment := Some(Assignment(address, reported, Ready, Some(Strip(request.backupAddress)), None, 0, {}, {})))
    else if Recoverable(c, address, request) then
      c.(assignment := Some(Assignment(address, reported, Reprotecting, None, None, 0, {}, {})))
    else if c.lastEpoch == 0 then
      c.(assignment := Some(Assignment(address, 1, Reprotecting, None, None, 0, {}, {})), lastEpoch := 1)
    else c
  }

  function RecoverWorker(c: Control, address: string, request: RegisterRequest): Option<Worker>
  {
    if c.assignment.None? && !Protected(c, address, request) && Recoverable(c, address, request)
       && c.nodes.Keys != {address} then Some(Worker(address, ReportedEpoch(request)))
    else None
  }

  predicate ReadyBackup(role: string, ready: bool, epoch: int, assignment: Assignment)
  {
    role == "backup" && ready && epoch == assignment.epoch
  }

  function Revoked(a: Assignment): Assignment
  {
    a.(backup := None, candidate := None, status := Reprotecting, attempted := {})
  }

  function WorkerFor(a: Assignment): Worker
  {
    Worker(a.primary, a.epoch)
  }

  /** An active backup that is not ready, or fresh evidence about a replica that may serve as one. */
  function Withdraw(c: Control, address: string, request: RegisterRequest): (Control, Option<Worker>)
  {
    if c.assignment.None? then (c, None)
    else
      var a := c.assignment.value;
      if a.status == Ready && a.backup == Some(address)
         && !ReadyBackup(request.role, request.ready, ReportedEpoch(request), a) then
        (c.(assignment := Some(Revoked(a))), Some(WorkerFor(a)))
      else if a.status == Reprotecting && a.candidate.None? && address != a.primary then
        (c.(assignment := Some(a.(attempted := a.attempted - {address}))), Some(WorkerFor(a)))
      else (c, None)
  }

  /** Repairs a ready assignment without a backup; no reachable state has one. */
  function Repair(c: Control, address: string): (Control, Option<Worker>)
  {
    if c.assignment.Some? && c.assignment.value.status == Ready && c.assignment.value.backup.None?
       && address != c.assignment.value.primary then
      (c.(assignment := Some(Revoked(c.assignment.value))), Some(WorkerFor(c.assignment.value)))
    else (c, None)
  }

  function Later<T>(first: Option<T>, second: Option<T>): Option<T>
  {
    if second.Some? then second else first
  }

  /** The state just before the recovery decision of a registration. */
  function Enrolled(c: Control, address: string, request: RegisterRequest): Control
  {
    Invalidate(c.(nodes := c.nodes[address := RegisteredNode(c, address, request)]), ReportedEpoch(request))
  }

  function Register(c: Control, request: RegisterRequest): (Control, RegisterReply, Option<Worker>)
  {
    var address := Strip(request.address);
    if address == "" then (c, RegisterReply(false, false, 0), None)
    else
      var enrolled := Enrolled(c, address, request);
      var recovered := Recover(enrolled, address, request);
      var (withdrawn, second) := Withdraw(recovered, address, request);
      var (final, third) := Repair(withdrawn, address);
      var reply := RegisterReply(
        true,
        final.assignment.Some? && final.assignment.value.primary == address,
        if final.assignment.Some? then final.assignment.value.epoch else final.lastEpoch);
      (final, reply, Later(Later(RecoverWorker(enrolled, address, request), second), third))
  }

  /** The primary is published only while the assignment is ready. */
  function GetPrimary(c: Control): Option<Worker>
  {
    if c.assignment.Some? && c.assignment.value.status == Ready then Some(WorkerFor(c.assignment.value)) else None
  }

  // ---------------------------------------------------------------- completion of a synchronization

  /** What the completion handler validated before it called the primary. */
  datatype Ticket = Ticket(primary: string, epoch: int, status: Status, backup: string, generation: int)

  function Expected(a: Assignment): Option<string>
  {
    if a.status == Promoting then a.backup else a.candidate
  }

  function ReportSync(c: Control, replicaAddress: string, sourceAddress: string, epoch: int): (Control, Option<Ticket>)
  {
    var replica, source := Strip(replicaAddress), Strip(sourceAddress);
    if replica == "" || source == "" || replica !in c.nodes || c.assignment.None? then (c, None)
    else
      var a := c.assignment.value;
      if a.primary != source || a.epoch != epoch || replica == a.primary || a.status == Ready
         || Expected(a) != Some(replica) then (c, None)
      else
        (c.(nodes := c.nodes[replica := c.nodes[replica].(synced := true, syncedEpoch := a.epoch)]),
         Some(Ticket(a.primary, a.epoch, a.status, replica, a.generation)))
  }

  /** The recovery attempt the ticket belongs to is still the current one. */
  predicate Live(c: Control, t: Ticket)
  {
    && Matches(c, t.primary, t.epoch, t.status)
    && c.assignment.value.generation == t.generation
    && t.status != Ready
    && Expected(c.assignment.value) == Some(t.backup)
  }

  function Activate(c: Control, t: Ticket): (Control, bool)
  {
    if !Live(c, t) then (c, false)
    else
      (c.(assignment := Some(c.assignment.value.(backup := Some(t.backup), candidate := None, status := Ready))), true)
  }

  function RejectReplacement(c: Control, t: Ticket): Control
  {
    if !Matches(c, t.primary, t.epoch, Reprotecting) || c.assignment.value.candidate != Some(t.backup)
       || c.assignment.value.generation != t.generation then c
    else
      c.(assignment := Some(c.assignment.value.(candidate := None)), nodes := Unsync(c.nodes, t.backup))
  }

  // ---------------------------------------------------------------- replacement of a lost backup

  function Replacements(nodes: Nodes, a: Assignment): set<string>
  {
    set k | k in nodes && k != a.primary && k !in a.attempted && nodes[k].failures == 0
  }

  function PickReplacement(c: Control, primary: string, epoch: int): (Control, Option<Ticket>)
  {
    if !Matches(c, primary, epoch, Reprotecting) || c.assignment.value.candidate.Some? then (c, None)
    else
      var a := c.assignment.value;
      match First(Replacements(c.nodes, a))
      case None => (c, None)
      case Some(backup) =>
        (c.(assignment := Some(a.(attempted := a.attempted + {backup}, generation := a.generation + 1,
                                  candidate := Some(backup))),
            nodes := Unsync(c.nodes, backup)),
         Some(Ticket(primary, epoch, Reprotecting, backup, a.generation + 1)))
  }

  /** A dispatch failed: the candidate it was for, if it is still the one, is given up. */
  function DispatchFailed(c: Control, t: Ticket): Control
  {
    if !Matches(c, t.primary, t.epoch, Reprotecting) || c.assignment.value.candidate != Some(t.backup)
       || c.assignment.value.generation != t.generation then c
    else c.(assignment := Some(c.assignment.value.(candidate := None)))
  }

  // ---------------------------------------------------------------- election and promotion

  function Electable(c: Control): set<string>
  {
    var epoch := if c.assignment.Some? then c.assignment.value.epoch else c.lastEpoch;
    set k | k in c.nodes && c.nodes[k].synced && (c.nodes[k].syncedEpoch == 0 || c.nodes[k].syncedEpoch == epoch)
  }

  function SelectPrimary(c: Control, eligible: Option<set<string>>): Option<string>
  {
    First(if eligible.Some? then eligible.value * c.nodes.Keys else Electable(c))
  }

  function Elect(c: Control, eligible: Option<set<string>>): (Control, Option<Worker>)
  {
    if c.assignment.Some? || c.electing then (c, None)
    else
      match SelectPrimary(c, eligible)
      case None => (c, None)
      case Some(address) =>
        var epoch := c.lastEpoch + 1;
        (Control(UnsyncAll(c.nodes),
                 Some(Assignment(address, epoch, Promoting, None, None, 0, c.nodes.Keys, {})), epoch, true),
         Some(Worker(address, epoch)))
  }

  predicate PromotionContext(c: Control, primary: string, epoch: int)
  {
    && Matches(c, primary, epoch, Promoting)
    && primary in c.nodes
    && (c.nodes[primary].synced || primary in c.assignment.value.eligible)
  }

  function Backups(nodes: Nodes, primary: string, a: Assignment): set<string>
  {
    var pool := if a.eligible != {} then a.eligible else set k | k in nodes && nodes[k].synced;
    set k | k in pool && k != primary && k in nodes && k !in a.attempted
  }

  datatype Choice = Outdated | Exhausted | Chosen(backup: string)

  function PickBackup(c: Control, primary: string, epoch: int): (Control, Choice)
  {
    if !Matches(c, primary, epoch, Promoting) then (c, Outdated)
    else
      var a := c.assignment.value;
      match First(Backups(c.nodes, primary, a))
      case None => (c, Exhausted)
      case Some(backup) =>
        (c.(assignment := Some(a.(attempted := a.attempted + {backup}, backup := Some(backup))),
            nodes := Unsync(c.nodes, backup)),
         Chosen(backup))
  }

  /** The candidate is evicted and the election repeated among the replicas registered at its election. */
  function CandidateFailed(c: Control, primary: string, epoch: int): (Control, Option<set<string>>)
  {
    if !Matches(c, primary, epoch, Promoting) then (c, None)
    else
      (c.(nodes := UnsyncAll(c.nodes - {primary}), assignment := None, electing := false),
       Some(set k | k in c.assignment.value.eligible && k != primary && k in c.nodes))
  }

  function BackupFailed(c: Control, primary: string, epoch: int, backup: string): (Control, bool)
  {
    if !Matches(c, primary, epoch, Promoting) || c.assignment.value.backup != Some(backup) then (c, false)
    else
      (c.(nodes := c.nodes - {backup}, assignment := Some(c.assignment.value.(backup := None))), true)
  }

  function Abandon(c: Control, primary: string, epoch: int): Control
  {
    if !Matches(c, primary, epoch, Promoting) then c
    else c.(nodes := UnsyncAll(c.nodes), assignment := None, electing := false)
  }

  // ---------------------------------------------------------------- heartbeats and eviction

  datatype Pulse = Pulse(role: string, ready: bool, epoch: int)

  function Heartbeat(c: Control, address: string, pulse: Pulse): (Control, Option<Worker>)
  {
    if address !in c.nodes then (c, None)
    else
      var seen := c.(nodes := c.nodes[address := c.nodes[address].(failures := 0)]);
      if c.assignment.Some? && c.assignment.value.status == Ready && c.assignment.value.backup == Some(address)
         && !ReadyBackup(pulse.role, pulse.ready, pulse.epoch, c.assignment.value) then
        (seen.(assignment := Some(Revoked(c.assignment.value))), Some(WorkerFor(c.assignment.value)))
      else (seen, None)
  }

  /** The third missed heartbeat in a row calls for eviction. */
  function HeartbeatMissed(c: Control, address: string): (Control, bool)
  {
    if address !in c.nodes then (c, false)
    else
      var failures := c.nodes[address].failures + 1;
      (c.(nodes := c.nodes[address := c.nodes[address].(failures := failures)]), failures >= 3)
  }

  datatype Followup =
    | Quiet
    | Election(eligible: Option<set<string>>)
    | Reprotection(worker: Worker)
    | BackupLost(primary: string, epoch: int, backup: string)

  /** How the failure of a registered replica is classified and what it sets off. */
  function Evict(c: Control, address: string): (Control, Followup)
  {
    if address !in c.nodes then (c, Quiet)
    else
      var rest := c.(nodes := c.nodes - {address});
      if c.assignment.None? then (rest, if c.electing then Quiet else Election(None))
      else
        var a := c.assignment.value;
        if a.primary == address then
          (rest.(assignment := None, electing := false),
           Election(if a.backup.Some? && a.backup.value != "" && a.backup.value in rest.nodes
                    then Some({a.backup.value}) else None))
        else if a.backup == Some(address) then
          match a.status
          case Promoting => (rest, if a.primary != "" then BackupLost(a.primary, a.epoch, address) else Quiet)
          case Ready =>
            (rest.(assignment := Some(a.(backup := None, status := Reprotecting, attempted := {}))),
             Reprotection(WorkerFor(a)))
          case Reprotecting => (rest, Quiet)
        else if a.status == Reprotecting && a.candidate == Some(address) then
          (rest.(assignment := Some(a.(candidate := None))), Reprotection(WorkerFor(a)))
        else (rest, Quiet)
  }

  // ---------------------------------------------------------------- interleavings

  /**
   * Any region may run at any time with any arguments: the continuations of every attempt that was ever
   * started, however late, are among them.
   */
  datatype Event =
    | Registered(request: RegisterRequest)
    | SyncReported(replica: string, source: string, epoch: int)
    | Activated(ticket: Ticket)
    | Rejected(ticket: Ticket)
    | ReplacementSought(primary: string, epoch: int)
    | DispatchLost(ticket: Ticket)
    | Elected(eligible: Option<set<string>>)
    | BackupSought(primary: string, epoch: int)
    | PromotionFailed(primary: string, epoch: int)
    | SyncFailed(primary: string, epoch: int, backup: string)
    | Abandoned(primary: string, epoch: int)
    | Beat(address: string, pulse: Pulse)
    | Missed(address: string)
    | Evicted(address: string)

  function Next(c: Control, ev: Event): Control
  {
    match ev
    case Registered(request) => Register(c, request).0
    case SyncReported(replica, source, epoch) => ReportSync(c, replica, source, epoch).0
    case Activated(ticket) => Activate(c, ticket).0
    case Rejected(ticket) => RejectReplacement(c, ticket)
    case ReplacementSought(primary, epoch) => PickReplacement(c, primary, epoch).0
    case DispatchLost(ticket) => DispatchFailed(c, ticket)
    case Elected(eligible) => Elect(c, eligible).0
    case BackupSought(primary, epoch) => PickBackup(c, primary, epoch).0
    case PromotionFailed(primary, epoch) => CandidateFailed(c, primary, epoch).0
    case SyncFailed(primary, epoch, backup) => BackupFailed(c, primary, epoch, backup).0
    case Abandoned(primary, epoch) => Abandon(c, primary, epoch)
    case Beat(address, pulse) => Heartbeat(c, address, pulse).0
    case Missed(address) => HeartbeatMissed(c, address).0
    case Evicted(address) => Evict(c, address).0
  }

  function After(c: Control, events: seq<Event>): Control
    decreases |events|
  {
    if events == [] then c else After(Next(c, events[0]), events[1..])
  }

  function Started(): Control
  {
    Control(map[], None, 0, false)
  }
}
