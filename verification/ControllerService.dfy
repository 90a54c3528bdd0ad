/**
 * The controller as an object updated in place. A method that holds the lock once refines the region of the
 * same name; the cascades are run to their end with every call to a replica answered by an adversary.
 */
module ControllerService {
  import opened Text
  import opened Controller
  import opened ControllerInvariant

  /** How the call that tells the primary about its new backup ended. */
  datatype Completion = Failed | Refused | Accepted

  class PrimaryAssignment {
    const primaryAddress: string
    const epoch: int
    var status: Status
    var syncBackupAddress: Option<string>
    var replacementCandidateAddress: Option<string>
    var recoveryGeneration: int
    const eligibleBackupAddresses: set<string>
    var attemptedBackupAddresses: set<string>

    constructor (primary: string, epoch: int, status: Status, backup: Option<string>, eligible: set<string>)
      ensures View() == Assignment(primary, epoch, status, backup, None, 0, eligible, {})
    {
      primaryAddress, this.epoch, this.status, syncBackupAddress := primary, epoch, status, backup;
      replacementCandidateAddress, recoveryGeneration := None, 0;
      eligibleBackupAddresses, attemptedBackupAddresses := eligible, {};
    }

    function View(): Assignment
      reads this
    {
      Assignment(primaryAddress, epoch, status, syncBackupAddress, replacementCandidateAddress,
                 recoveryGeneration, eligibleBackupAddresses, attemptedBackupAddresses)
    }
  }

  class Service {
    var nodes: Nodes
    var primaryAssignment: PrimaryAssignment?
    var lastPrimaryEpoch: int
    var electionInProgress: bool

    constructor ()
      ensures View() == Started() && primaryAssignment == null
    {
      nodes, primaryAssignment, lastPrimaryEpoch, electionInProgress := map[], null, 0, false;
    }

    function View(): Control
      reads this, primaryAssignment
    {
      Control(nodes, if primaryAssignment == null then None else Some(primaryAssignment.View()),
              lastPrimaryEpoch, electionInProgress)
    }

    /** The assignment object is the old one or a new one, so a caller may go on changing it. */
    twostate predicate Owned()
      reads this
    {
      primaryAssignment == null || primaryAssignment == old(primaryAssignment) || fresh(primaryAssignment)
    }

    // -------------------------------------------------------------- registration

    method RegisterNode(request: RegisterRequest) returns (reply: RegisterReply, worker: Option<Worker>)
      modifies this, primaryAssignment
      ensures Owned()
      ensures (View(), reply, worker) == Register(old(View()), request)
    {
      var address := Strip(request.address);
      worker := None;
      if address == "" {
        reply := RegisterReply(false, false, 0);
        return;
      }
      var reported := ReportedEpoch(request);
      EnrollNode(address, request, reported);
      worker := RecoverAssignment(address, request, reported);
      var second := WithdrawProtection(address, request);
      var third := RepairProtection(address);
      worker := Later(Later(worker, second), third);
      reply := RegisterReply(
        true,
        primaryAssignment != null && primaryAssignment.primaryAddress == address,
        if primaryAssignment != null then primaryAssignment.epoch else lastPrimaryEpoch);
    }

    method EnrollNode(address: string, request: RegisterRequest, reported: int)
      requires reported == ReportedEpoch(request)
      modifies this
      ensures Owned() && address in nodes
      ensures View() == Enrolled(old(View()), address, request)
    {
      var a := primaryAssignment;
      var synced := request.role == "backup" && request.ready && reported > 0
        && (a == null || a.syncBackupAddress == Some(address) || a.replacementCandidateAddress == Some(address));
      nodes := nodes[address := Node(synced, if synced then reported else 0, 0)];
      if primaryAssignment != null && reported > primaryAssignment.epoch {
        primaryAssignment, electionInProgress := null, false;
      }
      if reported > lastPrimaryEpoch {
        lastPrimaryEpoch := reported;
      }
    }

    method RecoverAssignment(address: string, request: RegisterRequest, reported: int) returns (worker: Option<Worker>)
      requires reported == ReportedEpoch(request) && address in nodes
      modifies this
      ensures Owned()
      ensures View() == Recover(old(View()), address, request)
      ensures worker == RecoverWorker(old(View()), address, request)
    {
      worker := None;
      var backup := Strip(request.backupAddress);
      var recoverable := request.role == "primary" && reported > 0 && reported == lastPrimaryEpoch && request.ready
        && backup != "" && backup != address && backup in nodes;
      if primaryAssignment == null {
        if recoverable && nodes[backup].synced && nodes[backup].syncedEpoch == reported {
          primaryAssignment := new PrimaryAssignment(address, reported, Ready, Some(backup), {});
        } else if recoverable {
          primaryAssignment := new PrimaryAssignment(address, reported, Reprotecting, None, {});
          if nodes.Keys != {address} {
            worker := Some(Worker(address, reported));
          }
        } else if lastPrimaryEpoch == 0 {
          lastPrimaryEpoch := lastPrimaryEpoch + 1;
          primaryAssignment := new PrimaryAssignment(address, lastPrimaryEpoch, Reprotecting, None, {});
        }
      }
    }

    method EnterReprotecting() returns (worker: Worker)
      requires primaryAssignment != null
      modifies primaryAssignment
      ensures View() == old(View()).(assignment := Some(Revoked(old(primaryAssignment.View()))))
      ensures worker == WorkerFor(old(primaryAssignment.View()))
    {
      primaryAssignment.syncBackupAddress := None;
      primaryAssignment.status := Reprotecting;
      primaryAssignment.attemptedBackupAddresses := {};
      primaryAssignment.replacementCandidateAddress := None;
      worker := Worker(primaryAssignment.primaryAddress, primaryAssignment.epoch);
    }

    method WithdrawProtection(address: string, request: RegisterRequest) returns (worker: Option<Worker>)
      modifies primaryAssignment
      ensures (View(), worker) == Withdraw(old(View()), address, request)
    {
      worker := None;
      var a := primaryAssignment;
      if a != null && a.status == Ready && a.syncBackupAddress == Some(address)
         && !(request.role == "backup" && request.ready && ReportedEpoch(request) == a.epoch) {
        var started := EnterReprotecting();
        worker := Some(started);
      } else if a != null && a.status == Reprotecting && a.replacementCandidateAddress == None
          && address != a.primaryAddress {
        a.attemptedBackupAddresses := a.attemptedBackupAddresses - {address};
        worker := Some(Worker(a.primaryAddress, a.epoch));
      }
    }

    method RepairProtection(address: string) returns (worker: Option<Worker>)
      modifies primaryAssignment
      ensures (View(), worker) == Repair(old(View()), address)
    {
      worker := None;
      var a := primaryAssignment;
      if a != null && a.status == Ready && a.syncBackupAddress == None && address != a.primaryAddress {
        var started := EnterReprotecting();
        worker := Some(started);
      }
    }

    // -------------------------------------------------------------- completion of a synchronization

    method ValidateCompletion(replicaAddress: string, sourceAddress: string, epoch: int)
      returns (ticket: Option<Ticket>)
      modifies `nodes
      ensures (View(), ticket) == ReportSync(old(View()), replicaAddress, sourceAddress, epoch)
    {
      var replica, source := Strip(replicaAddress), Strip(sourceAddress);
      var a := primaryAssignment;
      if replica == "" || source == "" || replica !in nodes {
        return None;
      }
      if a == null || a.primaryAddress != source || a.epoch != epoch || replica == a.primaryAddress
          || a.status == Ready {
        return None;
      }
      var expected := if a.status == Promoting then a.syncBackupAddress else a.replacementCandidateAddress;
      if Some(replica) != expected {
        return None;
      }
      nodes := nodes[replica := nodes[replica].(synced := true, syncedEpoch := a.epoch)];
      return Some(Ticket(a.primaryAddress, a.epoch, a.status, replica, a.recoveryGeneration));
    }

    method ActivateBackup(ticket: Ticket) returns (activated: bool)
      modifies primaryAssignment
      ensures (View(), activated) == Activate(old(View()), ticket)
    {
      var a := primaryAssignment;
      activated := a != null && a.primaryAddress == ticket.primary && a.epoch == ticket.epoch
        && a.status == ticket.status && a.recoveryGeneration == ticket.generation
        && (|| (ticket.status == Promoting && a.syncBackupAddress == Some(ticket.backup))
            || (ticket.status == Reprotecting && a.replacementCandidateAddress == Some(ticket.backup)));
      if activated {
        a.syncBackupAddress := Some(ticket.backup);
        a.replacementCandidateAddress := None;
        a.status := Ready;
      }
    }

    method RejectReplacementCandidate(ticket: Ticket)
      modifies this, primaryAssignment
      ensures primaryAssignment == old(primaryAssignment)
      ensures View() == RejectReplacement(old(View()), ticket)
    {
      var a := primaryAssignment;
      if a != null && a.primaryAddress == ticket.primary && a.epoch == ticket.epoch && a.status == Reprotecting
         && a.replacementCandidateAddress == Some(ticket.backup) && a.recoveryGeneration == ticket.generation {
        a.replacementCandidateAddress := None;
        if ticket.backup in nodes {
          nodes := nodes[ticket.backup := Unsynced(nodes[ticket.backup])];
        }
      }
    }

    // -------------------------------------------------------------- replacement of a lost backup

    method SelectReplacement(primary: string, epoch: int) returns (ticket: Option<Ticket>)
      modifies this, primaryAssignment
      ensures primaryAssignment == old(primaryAssignment)
      ensures (View(), ticket) == PickReplacement(old(View()), primary, epoch)
    {
      var a := primaryAssignment;
      if a == null || a.primaryAddress != primary || a.epoch != epoch || a.status != Reprotecting
         || a.replacementCandidateAddress != None {
        return None;
      }
      var backup := First(Replacements(nodes, a.View()));
      if backup == None {
        return None;
      }
      a.attemptedBackupAddresses := a.attemptedBackupAddresses + {backup.value};
      a.recoveryGeneration := a.recoveryGeneration + 1;
      a.replacementCandidateAddress := backup;
      nodes := nodes[backup.value := Unsynced(nodes[backup.value])];
      return Some(Ticket(primary, epoch, Reprotecting, backup.value, a.recoveryGeneration));
    }

    method GiveUpCandidate(ticket: Ticket)
      modifies primaryAssignment
      ensures View() == DispatchFailed(old(View()), ticket)
    {
      var a := primaryAssignment;
      if a != null && a.primaryAddress == ticket.primary && a.epoch == ticket.epoch && a.status == Reprotecting
         && a.replacementCandidateAddress == Some(ticket.backup) && a.recoveryGeneration == ticket.generation {
        a.replacementCandidateAddress := None;
      }
    }

    // -------------------------------------------------------------- election and promotion

    method ClearSynchronization()
      modifies `nodes
      ensures nodes == UnsyncAll(old(nodes))
    {
      var rest := nodes.Keys;
      while rest != {}
        invariant rest <= nodes.Keys == old(nodes).Keys
        invariant forall k :: k in nodes ==>
          nodes[k] == if k in rest then old(nodes)[k] else Unsynced(old(nodes)[k])
        decreases |rest|
      {
        var k :| k in rest;
        nodes := nodes[k := Unsynced(nodes[k])];
        rest := rest - {k};
      }
    }

    method SelectCandidate(eligible: Option<set<string>>) returns (worker: Option<Worker>)
      modifies this
      ensures Owned()
      ensures (View(), worker) == Elect(old(View()), eligible)
    {
      if primaryAssignment != null || electionInProgress {
        return None;
      }
      var candidate := SelectPrimary(View(), eligible);
      if candidate == None {
        return None;
      }
      var registered := nodes.Keys;
      lastPrimaryEpoch := lastPrimaryEpoch + 1;
      primaryAssignment := new PrimaryAssignment(candidate.value, lastPrimaryEpoch, Promoting, None, registered);
      electionInProgress := true;
      ClearSynchronization();
      return Some(Worker(candidate.value, lastPrimaryEpoch));
    }

    method SelectBackup(primary: string, epoch: int) returns (choice: Choice)
      modifies this, primaryAssignment
      ensures primaryAssignment == old(primaryAssignment)
      ensures (View(), choice) == PickBackup(old(View()), primary, epoch)
    {
      var a := primaryAssignment;
      if a == null || a.primaryAddress != primary || a.epoch != epoch || a.status != Promoting {
        return Outdated;
      }
      var backup := First(Backups(nodes, primary, a.View()));
      if backup == None {
        return Exhausted;
      }
      a.attemptedBackupAddresses := a.attemptedBackupAddresses + {backup.value};
      a.syncBackupAddress := backup;
      nodes := nodes[backup.value := Unsynced(nodes[backup.value])];
      return Chosen(backup.value);
    }

    method DropCandidate(primary: string, epoch: int) returns (retry: Option<set<string>>)
      modifies this
      ensures Owned()
      ensures (View(), retry) == CandidateFailed(old(View()), primary, epoch)
    {
      var a := primaryAssignment;
      if a == null || a.primaryAddress != primary || a.epoch != epoch || a.status != Promoting {
        return None;
      }
      retry := Some(set k | k in a.eligibleBackupAddresses && k != primary && k in nodes);
      nodes := nodes - {primary};
      ClearSynchronization();
      primaryAssignment, electionInProgress := null, false;
    }

    method DropBackup(primary: string, epoch: int, backup: string) returns (dropped: bool)
      modifies this, primaryAssignment
      ensures primaryAssignment == old(primaryAssignment)
      ensures (View(), dropped) == BackupFailed(old(View()), primary, epoch, backup)
    {
      var a := primaryAssignment;
      if a == null || a.primaryAddress != primary || a.epoch != epoch || a.status != Promoting
         || a.syncBackupAddress != Some(backup) {
        return false;
      }
      nodes := nodes - {backup};
      a.syncBackupAddress := None;
      return true;
    }

    method AbandonPromotion(primary: string, epoch: int)
      modifies this
      ensures Owned()
      ensures View() == Abandon(old(View()), primary, epoch)
    {
      var a := primaryAssignment;
      if a != null && a.primaryAddress == primary && a.epoch == epoch && a.status == Promoting {
        ClearSynchronization();
        primaryAssignment, electionInProgress := null, false;
      }
    }

    // -------------------------------------------------------------- heartbeats and eviction

    method ReceiveHeartbeat(address: string, pulse: Pulse) returns (worker: Option<Worker>)
      modifies this, primaryAssignment
      ensures primaryAssignment == old(primaryAssignment)
      ensures (View(), worker) == Heartbeat(old(View()), address, pulse)
    {
      worker := None;
      if address in nodes {
        nodes := nodes[address := nodes[address].(failures := 0)];
        var a := primaryAssignment;
        if a != null && a.status == Ready && a.syncBackupAddress == Some(address)
           && !(pulse.role == "backup" && pulse.ready && pulse.epoch == a.epoch) {
          var started := EnterReprotecting();
          worker := Some(started);
        }
      }
    }

    method RecordHeartbeatFailure(address: string) returns (evict: bool)
      modifies `nodes
      ensures (View(), evict) == HeartbeatMissed(old(View()), address)
    {
      if address !in nodes {
        return false;
      }
      nodes := nodes[address := nodes[address].(failures := nodes[address].failures + 1)];
      return nodes[address].failures >= 3;
    }

    method RemoveReplica(address: string) returns (next: Followup)
      modifies this, primaryAssignment
      ensures Owned()
      ensures (View(), next) == Evict(old(View()), address)
    {
      if address !in nodes {
        return Quiet;
      }
      nodes := nodes - {address};
      var a := primaryAssignment;
      if a == null {
        return if electionInProgress then Quiet else Election(None);
      } else if a.primaryAddress == address {
        var backup := a.syncBackupAddress;
        primaryAssignment, electionInProgress := null, false;
        return Election(
            if backup.Some? && backup.value != "" && backup.value in nodes then Some({backup.value}) else None);
      } else if a.syncBackupAddress == Some(address) {
        if a.status == Promoting {
          return if a.primaryAddress != "" then BackupLost(a.primaryAddress, a.epoch, address) else Quiet;
        } else if a.status == Ready {
          a.syncBackupAddress := None;
          a.status := Reprotecting;
          a.attemptedBackupAddresses := {};
          return Reprotection(Worker(a.primaryAddress, a.epoch));
        }
        return Quiet;
      } else if a.status == Reprotecting && a.replacementCandidateAddress == Some(address) {
        a.replacementCandidateAddress := None;
        return Reprotection(Worker(a.primaryAddress, a.epoch));
      }
      return Quiet;
    }

    // -------------------------------------------------------------- cascades

    /** How many replacement attempts the current assignment still has. */
    function Attemptable(): nat
      reads this, primaryAssignment
    {
      AttemptsLeft(View())
    }

    /** Picks a replica and asks it to synchronize; a failed call gives the attempt up. */
    method DispatchReplacement(primary: string, epoch: int) returns (sent: bool, accepted: bool)
      requires Ok(View())
      modifies this, primaryAssignment
      ensures primaryAssignment == old(primaryAssignment) && nodes.Keys == old(nodes.Keys)
      ensures Ok(View()) && Leads(old(View()), View())
      ensures lastPrimaryEpoch == old(lastPrimaryEpoch)
      ensures Attemptable() + (if sent then 1 else 0) == old(Attemptable())
    {
      ghost var start := View();
      var ticket := SelectReplacement(primary, epoch);
      sent, accepted := ticket.Some?, *;
      AttemptLeads(start, primary, epoch);
      if sent && !accepted {
        GiveUpCandidate(ticket.value);
      }
    }

    /** Tries one replica after the other until a dispatch is accepted or none is left. */
    method TryNextReplacementBackup(primary: string, epoch: int) returns (dispatches: nat)
      requires Ok(View())
      modifies this, primaryAssignment
      ensures primaryAssignment == old(primaryAssignment) && nodes.Keys == old(nodes.Keys)
      ensures Ok(View()) && Leads(old(View()), View())
      ensures lastPrimaryEpoch == old(lastPrimaryEpoch) && dispatches + Attemptable() <= old(Attemptable())
      decreases Attemptable()
    {
      ghost var start := View();
      var sent, accepted := DispatchReplacement(primary, epoch);
      ghost var after := View();
      dispatches := if sent then 1 else 0;
      if sent && !accepted {
        var more := TryNextReplacementBackup(primary, epoch);
        dispatches := dispatches + more;
        LeadsTrans(start, after, View());
      }
    }

    /** Synchronizes a promotion with one backup after the other; an unreachable one is evicted. */
    method TryNextPromotionBackup(primary: string, epoch: int)
      requires Ok(View())
      modifies this, primaryAssignment
      ensures Owned() && nodes.Keys <= old(nodes.Keys)
      ensures Ok(View()) && Leads(old(View()), View())
      ensures lastPrimaryEpoch == old(lastPrimaryEpoch)
      decreases |nodes.Keys - {primary}|, 0
    {
      ghost var start := View();
      var choice := SelectBackup(primary, epoch);
      LeadsStep(start, BackupSought(primary, epoch));
      PromotionPool(start, primary, epoch);
      ghost var picked := View();
      if choice.Exhausted? {
        AbandonPromotion(primary, epoch);
        LeadsStep(picked, Abandoned(primary, epoch));
        LeadsTrans(start, picked, View());
      } else if choice.Chosen? {
        var synchronized: bool := *;
        if !synchronized {
          Shrinks(nodes.Keys - {primary}, choice.backup);
          HandlePromotionBackupFailure(primary, epoch, choice.backup);
          LeadsTrans(start, picked, View());
        }
      }
    }

    method HandlePromotionBackupFailure(primary: string, epoch: int, backup: string)
      requires Ok(View())
      modifies this, primaryAssignment
      ensures Owned() && nodes.Keys <= old(nodes.Keys)
      ensures Ok(View()) && Leads(old(View()), View())
      ensures lastPrimaryEpoch == old(lastPrimaryEpoch)
      decreases |nodes.Keys - {primary} - {backup}|, 1
    {
      ghost var start := View();
      var dropped := DropBackup(primary, epoch, backup);
      DropLeads(start, primary, epoch, backup);
      ghost var after := View();
      if dropped {
        TryNextPromotionBackup(primary, epoch);
        LeadsTrans(start, after, View());
      }
    }

    /** Elects and promotes one candidate after the other; each one that fails is evicted. */
    method ElectNewPrimary(eligible: Option<set<string>>)
      requires Ok(View())
      modifies this, primaryAssignment
      ensures Owned() && nodes.Keys <= old(nodes.Keys)
      ensures Ok(View()) && Leads(old(View()), View())
      ensures old(lastPrimaryEpoch) <= lastPrimaryEpoch <= old(lastPrimaryEpoch) + |old(nodes.Keys)|
      decreases |nodes.Keys|, 0
    {
      ghost var start := View();
      var elected := SelectCandidate(eligible);
      LeadsStep(start, Elected(eligible));
      ElectionDecides(start, eligible);
      ghost var after := View();
      if elected.Some? {
        assert nodes.Keys == old(nodes.Keys);
        Shrinks(nodes.Keys, elected.value.primary);
        NotifyPromotion(elected.value.primary, elected.value.epoch);
        LeadsTrans(start, after, View());
      }
    }

    method NotifyPromotion(primary: string, epoch: int)
      requires Ok(View())
      modifies this, primaryAssignment
      ensures Owned() && nodes.Keys <= old(nodes.Keys)
      ensures Ok(View()) && Leads(old(View()), View())
      ensures old(lastPrimaryEpoch) <= lastPrimaryEpoch <= old(lastPrimaryEpoch) + |old(nodes.Keys) - {primary}|
      decreases |nodes.Keys - {primary}|, 2
    {
      if !PromotionContext(View(), primary, epoch) {
        LeadsNowhere(View());
        return;
      }
      var begun: bool := *;
      var confirmed: bool := *;
      if begun && confirmed {
        TryNextPromotionBackup(primary, epoch);
      } else {
        HandleCandidatePromotionFailure(primary, epoch);
      }
    }

    method HandleCandidatePromotionFailure(primary: string, epoch: int)
      requires Ok(View())
      modifies this, primaryAssignment
      ensures Owned() && nodes.Keys <= old(nodes.Keys)
      ensures Ok(View()) && Leads(old(View()), View())
      ensures old(lastPrimaryEpoch) <= lastPrimaryEpoch <= old(lastPrimaryEpoch) + |old(nodes.Keys) - {primary}|
      decreases |nodes.Keys - {primary}|, 1
    {
      ghost var start := View();
      var retry := DropCandidate(primary, epoch);
      LeadsStep(start, PromotionFailed(primary, epoch));
      ghost var after := View();
      if retry.Some? {
        assert nodes.Keys == old(nodes.Keys) - {primary};
        ElectNewPrimary(retry);
        LeadsTrans(start, after, View());
      }
    }

    /** The eviction of a replica and everything it sets off. */
    method HandleReplicaFailure(address: string)
      requires Ok(View())
      modifies this, primaryAssignment
      ensures Owned() && nodes.Keys <= old(nodes.Keys) - {address}
      ensures Ok(View()) && Leads(old(View()), View())
      ensures old(lastPrimaryEpoch) <= lastPrimaryEpoch <= old(lastPrimaryEpoch) + |old(nodes.Keys)|
    {
      ghost var start := View();
      var next := RemoveReplica(address);
      LeadsStep(start, Evicted(address));
      EvictRemoves(start, address);
      ghost var after := View();
      FollowUp(next);
      LeadsTrans(start, after, View());
    }

    method FollowUp(next: Followup)
      requires Ok(View())
      modifies this, primaryAssignment
      ensures Owned() && nodes.Keys <= old(nodes.Keys)
      ensures Ok(View()) && Leads(old(View()), View())
      ensures old(lastPrimaryEpoch) <= lastPrimaryEpoch <= old(lastPrimaryEpoch) + |old(nodes.Keys)|
    {
      match next
      case Quiet => LeadsNowhere(View());
      case Election(eligible) => ElectNewPrimary(eligible);
      case Reprotection(worker) => var dispatches := TryNextReplacementBackup(worker.primary, worker.epoch);
      case BackupLost(primary, epoch, backup) => HandlePromotionBackupFailure(primary, epoch, backup);
    }

    /** The end of a completion, once the call to the primary has failed, been refused or been accepted. */
    method FinishCompletion(ticket: Ticket, outcome: Completion) returns (success: bool)
      requires Ok(View()) && ticket.status != Ready
      modifies this, primaryAssignment
      ensures Owned() && nodes.Keys <= old(nodes.Keys)
      ensures Ok(View()) && Leads(old(View()), View())
      ensures success <==> outcome == Accepted && Live(old(View()), ticket)
      ensures outcome == Accepted ==> View() == Activate(old(View()), ticket).0
      ensures ticket.status == Reprotecting && !Live(old(View()), ticket) ==> View() == old(View())
    {
      ghost var start := View();
      success := false;
      if outcome == Accepted {
        success := ActivateBackup(ticket);
        LeadsStep(start, Activated(ticket));
      } else if ticket.status == Reprotecting {
        RejectReplacementCandidate(ticket);
        LeadsStep(start, Event.Rejected(ticket));
      } else if outcome == Failed {
        AbandonPromotion(ticket.primary, ticket.epoch);
        LeadsStep(start, Abandoned(ticket.primary, ticket.epoch));
      } else {
        HandleCandidatePromotionFailure(ticket.primary, ticket.epoch);
      }
    }

    method CheckHeartbeat(address: string, pulse: Option<Pulse>) returns (worker: Option<Worker>)
      requires Ok(View())
      modifies this, primaryAssignment
      ensures Owned() && nodes.Keys <= old(nodes.Keys)
      ensures Ok(View()) && Leads(old(View()), View())
    {
      ghost var start := View();
      worker := None;
      if pulse.Some? {
        worker := ReceiveHeartbeat(address, pulse.value);
        LeadsStep(start, Beat(address, pulse.value));
      } else {
        var evict := RecordHeartbeatFailure(address);
        LeadsStep(start, Event.Missed(address));
        ghost var after := View();
        if evict {
          HandleReplicaFailure(address);
          LeadsTrans(start, after, View());
        }
      }
    }

    /** One pass over the membership as it was at the start; a missing pulse is a failed call. */
    method CheckHeartbeatsOnce(pulses: map<string, Pulse>) returns (workers: seq<Worker>)
      requires Ok(View())
      modifies this, primaryAssignment
      ensures Owned() && nodes.Keys <= old(nodes.Keys)
      ensures Ok(View()) && Leads(old(View()), View())
    {
      workers := [];
      var rest := nodes.Keys;
      LeadsNowhere(View());
      while rest != {}
        invariant Owned() && nodes.Keys <= old(nodes.Keys)
        invariant Ok(View()) && Leads(old(View()), View())
        decreases |rest|
      {
        var address := First(rest).value;
        rest := rest - {address};
        ghost var before := View();
        var worker := CheckHeartbeat(address, Lookup(pulses, address));
        LeadsTrans(old(View()), before, View());
        workers := workers + (if worker.Some? then [worker.value] else []);
      }
    }
  }

  // ---------------------------------------------------------------- interleavings seen from the methods

  ghost predicate Step(c: Control, c': Control)
  {
    exists ev :: Next(c, ev) == c'
  }

  ghost predicate Steps(states: seq<Control>)
  {
    forall i, j | 0 <= i < |states| && 0 <= j < |states| && j == i + 1 :: Step(states[i], states[j])
  }

  /** Some interleaving of regions takes the controller from one state to the other. */
  ghost predicate Leads(c: Control, c': Control)
  {
    exists states :: states != [] && Steps(states) && states[0] == c && states[|states| - 1] == c'
  }

  lemma LeadsNowhere(c: Control)
    ensures Leads(c, c)
  {
    assert Steps([c]);
  }

  lemma LeadsStep(c: Control, ev: Event)
    requires Ok(c)
    ensures Leads(c, Next(c, ev)) && Ok(Next(c, ev))
  {
    NextOk(c, ev);
    assert Step(c, Next(c, ev));
    assert Steps([c, Next(c, ev)]);
  }

  lemma LeadsTrans(a: Control, b: Control, c: Control)
    requires Leads(a, b) && Leads(b, c)
    ensures Leads(a, c)
  {
    var front :| front != [] && Steps(front) && front[0] == a && front[|front| - 1] == b;
    var back :| back != [] && Steps(back) && back[0] == b && back[|back| - 1] == c;
    var states := front + back[1..];
    forall i, j | 0 <= i < |states| && 0 <= j < |states| && j == i + 1 ensures Step(states[i], states[j]) {
      if j < |front| {
        assert Step(front[i], front[j]);
      } else {
        assert Step(back[i - (|front| - 1)], back[j - (|front| - 1)]);
      }
    }
    assert Steps(states);
  }

  /** What the methods call an interleaving is a run of events. */
  lemma LeadsIsRun(c: Control, c': Control)
    ensures Leads(c, c') <==> exists events :: After(c, events) == c'
  {
    if Leads(c, c') {
      var states :| states != [] && Steps(states) && states[0] == c && states[|states| - 1] == c';
      StatesAreRun(states);
    }
    if events :| After(c, events) == c' {
      RunLeads(c, events);
    }
  }

  lemma {:induction false} StatesAreRun(states: seq<Control>)
    requires states != [] && Steps(states)
    ensures exists events :: After(states[0], events) == states[|states| - 1]
    decreases |states|
  {
    if |states| == 1 {
      assert After(states[0], []) == states[0];
    } else {
      var rest := states[1..];
      forall i, j | 0 <= i < |rest| && 0 <= j < |rest| && j == i + 1 ensures Step(rest[i], rest[j]) {
        assert Step(states[i + 1], states[j + 1]);
      }
      StatesAreRun(rest);
      var events :| After(rest[0], events) == rest[|rest| - 1];
      assert Step(states[0], states[1]);
      var ev :| Next(states[0], ev) == states[1];
      assert ([ev] + events)[1..] == events;
      assert After(states[0], [ev] + events) == After(states[1], events);
    }
  }

  lemma {:induction false} RunLeads(c: Control, events: seq<Event>)
    ensures Leads(c, After(c, events))
    decreases |events|
  {
    if events == [] {
      LeadsNowhere(c);
    } else {
      var next := Next(c, events[0]);
      assert Step(c, next);
      assert Steps([c, next]);
      RunLeads(next, events[1..]);
      LeadsTrans(c, next, After(c, events));
    }
  }

  // ---------------------------------------------------------------- what the cascades use up

  lemma Shrinks(s: set<string>, x: string)
    requires x in s
    ensures |s - {x}| + 1 == |s|
  {
  }

  lemma EvictRemoves(c: Control, address: string)
    ensures Evict(c, address).0.nodes.Keys == c.nodes.Keys - {address}
    ensures Evict(c, address).0.lastEpoch == c.lastEpoch
  {
  }

  function AttemptsLeft(c: Control): nat
  {
    if c.assignment.None? then 0 else |Replacements(c.nodes, c.assignment.value)|
  }

  lemma DropLeads(c: Control, primary: string, epoch: int, backup: string)
    requires Ok(c)
    ensures var (c', dropped) := BackupFailed(c, primary, epoch, backup);
      && Ok(c') && Leads(c, c') && c'.lastEpoch == c.lastEpoch && c'.nodes.Keys <= c.nodes.Keys
      && (dropped ==> c'.nodes.Keys - {primary} == c.nodes.Keys - {primary} - {backup})
  {
    LeadsStep(c, SyncFailed(primary, epoch, backup));
  }

  /** A replacement attempt, given up or not, leaves one replica fewer to try. */
  lemma OneFewer(c: Control, primary: string, epoch: int)
    ensures var (picked, ticket) := PickReplacement(c, primary, epoch);
      && picked.nodes.Keys == c.nodes.Keys && picked.lastEpoch == c.lastEpoch
      && AttemptsLeft(picked) + (if ticket.Some? then 1 else 0) == AttemptsLeft(c)
      && (ticket.Some? ==>
            var after := DispatchFailed(picked, ticket.value);
            && after.nodes == picked.nodes && after.lastEpoch == c.lastEpoch
            && AttemptsLeft(after) == AttemptsLeft(picked))
  {
    var (picked, ticket) := PickReplacement(c, primary, epoch);
    if ticket.Some? {
      var after := DispatchFailed(picked, ticket.value);
      assert Replacements(picked.nodes, picked.assignment.value)
          == Replacements(c.nodes, c.assignment.value) - {ticket.value.backup};
      assert Replacements(after.nodes, after.assignment.value) == Replacements(picked.nodes, picked.assignment.value);
    }
  }

  lemma AttemptLeads(c: Control, primary: string, epoch: int)
    requires Ok(c)
    ensures var (picked, ticket) := PickReplacement(c, primary, epoch);
      && Ok(picked) && Leads(c, picked)
      && picked.nodes.Keys == c.nodes.Keys && picked.lastEpoch == c.lastEpoch
      && AttemptsLeft(picked) + (if ticket.Some? then 1 else 0) == AttemptsLeft(c)
      && (ticket.Some? ==>
            var after := DispatchFailed(picked, ticket.value);
            && Ok(after) && Leads(c, after)
            && after.nodes == picked.nodes && after.lastEpoch == c.lastEpoch
            && AttemptsLeft(after) == AttemptsLeft(picked))
  {
    var (picked, ticket) := PickReplacement(c, primary, epoch);
    LeadsStep(c, ReplacementSought(primary, epoch));
    OneFewer(c, primary, epoch);
    if ticket.Some? {
      LeadsStep(picked, DispatchLost(ticket.value));
      LeadsTrans(c, picked, DispatchFailed(picked, ticket.value));
    }
  }
}
