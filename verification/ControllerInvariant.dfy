/** What every interleaving of the controller's regions keeps, with arguments as stale as they may be. */
module ControllerInvariant {
  import opened Text
  import opened Controller

  predicate NodesOk(nodes: Nodes, lastEpoch: int)
  {
    forall k :: k in nodes ==>
      && k != ""
      && (if nodes[k].synced then 1 <= nodes[k].syncedEpoch <= lastEpoch else nodes[k].syncedEpoch == 0)
  }

  predicate AssignmentOk(a: Assignment)
  {
    && a.primary != "" && a.epoch >= 1 && a.generation >= 0
    && (a.backup.Some? ==> a.backup.value != "" && a.backup.value != a.primary)
    && (a.candidate.Some? ==>
          a.candidate.value != "" && a.candidate.value != a.primary && a.candidate.value in a.attempted)
    && match a.status
       case Ready => a.backup.Some? && a.candidate.None?
       case Reprotecting => a.backup.None?
       case Promoting =>
         && a.candidate.None? && a.generation == 0 && a.primary in a.eligible
         && (a.backup.Some? ==> a.backup.value in a.attempted)
  }

  predicate Ok(c: Control)
  {
    && c.lastEpoch >= 0
    && NodesOk(c.nodes, c.lastEpoch)
    && (if c.assignment.Some? then AssignmentOk(c.assignment.value) && c.assignment.value.epoch == c.lastEpoch
        else !c.electing)
  }

  // ---------------------------------------------------------------- every region

  lemma EnrolledOk(c: Control, address: string, request: RegisterRequest)
    requires Ok(c) && address != ""
    ensures Ok(Enrolled(c, address, request))
    ensures ReportedEpoch(request) <= Enrolled(c, address, request).lastEpoch
    ensures c.lastEpoch <= Enrolled(c, address, request).lastEpoch
    ensures address in Enrolled(c, address, request).nodes
  {
  }

  lemma RecoverOk(c: Control, address: string, request: RegisterRequest)
    requires Ok(c) && address != "" && ReportedEpoch(request) <= c.lastEpoch
    ensures Ok(Recover(c, address, request)) && c.lastEpoch <= Recover(c, address, request).lastEpoch
  {
  }

  lemma WithdrawOk(c: Control, address: string, request: RegisterRequest)
    requires Ok(c)
    ensures Ok(Withdraw(c, address, request).0) && Withdraw(c, address, request).0.lastEpoch == c.lastEpoch
  {
  }

  /** The branch for a ready assignment without a backup is never taken. */
  lemma RepairIsIdle(c: Control, address: string)
    requires Ok(c)
    ensures Repair(c, address) == (c, None)
  {
  }

  lemma RegisterOk(c: Control, request: RegisterRequest)
    requires Ok(c)
    ensures Ok(Register(c, request).0) && c.lastEpoch <= Register(c, request).0.lastEpoch
    ensures Register(c, request).1.success ==>
      && ReportedEpoch(request) <= Register(c, request).1.epoch
      && Register(c, request).1.epoch == Register(c, request).0.lastEpoch
  {
    var address := Strip(request.address);
    if address != "" {
      EnrolledOk(c, address, request);
      var enrolled := Enrolled(c, address, request);
      RecoverOk(enrolled, address, request);
      var recovered := Recover(enrolled, address, request);
      WithdrawOk(recovered, address, request);
      RepairIsIdle(Withdraw(recovered, address, request).0, address);
    }
  }

  lemma CompletionOk(c: Control, replica: string, source: string, epoch: int, t: Ticket)
    requires Ok(c)
    ensures Ok(ReportSync(c, replica, source, epoch).0)
    ensures Ok(Activate(c, t).0)
    ensures Ok(RejectReplacement(c, t))
    ensures Ok(DispatchFailed(c, t))
  {
  }

  lemma ReplacementOk(c: Control, primary: string, epoch: int)
    requires Ok(c)
    ensures Ok(PickReplacement(c, primary, epoch).0)
  {
  }

  lemma ElectOk(c: Control, eligible: Option<set<string>>)
    requires Ok(c)
    ensures Ok(Elect(c, eligible).0)
  {
  }

  lemma PromotionOk(c: Control, primary: string, epoch: int, backup: string)
    requires Ok(c)
    ensures Ok(PickBackup(c, primary, epoch).0)
    ensures Ok(CandidateFailed(c, primary, epoch).0)
    ensures Ok(BackupFailed(c, primary, epoch, backup).0)
    ensures Ok(Abandon(c, primary, epoch))
  {
  }

  lemma HealthOk(c: Control, address: string, pulse: Pulse)
    requires Ok(c)
    ensures Ok(Heartbeat(c, address, pulse).0)
    ensures Ok(HeartbeatMissed(c, address).0)
  {
  }

  lemma EvictOk(c: Control, address: string)
    requires Ok(c)
    ensures Ok(Evict(c, address).0)
  {
  }

  /** Every region keeps the invariant, and the last epoch never decreases. */
  lemma NextOk(c: Control, ev: Event)
    requires Ok(c)
    ensures Ok(Next(c, ev)) && c.lastEpoch <= Next(c, ev).lastEpoch
  {
    match ev
    case Registered(request) => RegisterOk(c, request);
    case SyncReported(replica, source, epoch) => CompletionOk(c, replica, source, epoch, Ticket("", 0, Ready, "", 0));
    case Activated(ticket) => CompletionOk(c, "", "", 0, ticket);
    case Rejected(ticket) => CompletionOk(c, "", "", 0, ticket);
    case ReplacementSought(primary, epoch) => ReplacementOk(c, primary, epoch);
    case DispatchLost(ticket) => CompletionOk(c, "", "", 0, ticket);
    case Elected(eligible) => ElectOk(c, eligible);
    case BackupSought(primary, epoch) => PromotionOk(c, primary, epoch, "");
    case PromotionFailed(primary, epoch) => PromotionOk(c, primary, epoch, "");
    case SyncFailed(primary, epoch, backup) => PromotionOk(c, primary, epoch, backup);
    case Abandoned(primary, epoch) => PromotionOk(c, primary, epoch, "");
    case Beat(address, pulse) => HealthOk(c, address, pulse);
    case Missed(address) => HealthOk(c, address, Pulse("", false, 0));
    case Evicted(address) => EvictOk(c, address);
  }

  lemma {:induction false} AfterOk(c: Control, events: seq<Event>)
    requires Ok(c)
    ensures Ok(After(c, events)) && c.lastEpoch <= After(c, events).lastEpoch
    decreases |events|
  {
    if events != [] {
      NextOk(c, events[0]);
      AfterOk(Next(c, events[0]), events[1..]);
    }
  }

  /**
   * In every interleaving from the start: ready means protected by another replica, reprotecting means
   * unprotected, promoting means no replacement is sought, and nothing is being elected without an assignment.
   */
  lemma AssignmentShape(events: seq<Event>)
    ensures var c := After(Started(), events);
      && (c.assignment.None? ==> !c.electing)
      && (c.assignment.Some? ==>
            var a := c.assignment.value;
            && a.epoch == c.lastEpoch >= 1
            && (a.status == Ready ==>
                  a.backup.Some? && a.backup.value != "" && a.backup.value != a.primary && a.candidate.None?)
            && (a.status == Reprotecting ==> a.backup.None?)
            && (a.status == Promoting ==> a.candidate.None?))
      && (GetPrimary(c).Some? <==>
            c.assignment.Some? && c.assignment.value.backup.Some? && c.assignment.value.status != Promoting)
  {
    AfterOk(Started(), events);
  }

  // ---------------------------------------------------------------- branches no interleaving takes

  /** The flag alone never stops an election, and every election raises the epoch. */
  lemma ElectionDecides(c: Control, eligible: Option<set<string>>)
    requires Ok(c)
    ensures Elect(c, eligible).1.Some? <==> c.assignment.None? && SelectPrimary(c, eligible).Some?
    ensures Elect(c, eligible).1.Some? ==>
      var Worker(elected, epoch) := Elect(c, eligible).1.value;
      && elected in c.nodes && c.lastEpoch < epoch && Elect(c, eligible).0.lastEpoch == epoch
      && (eligible.Some? ==> elected in eligible.value)
      && (eligible.None? ==> c.nodes[elected].synced && c.nodes[elected].syncedEpoch == c.lastEpoch)
      && PromotionContext(Elect(c, eligible).0, elected, epoch)
    ensures Elect(c, eligible).1.None? ==> Elect(c, eligible).0 == c
  {
  }

  /** A promotion falls back on neither default: its candidate was registered and so was every backup it may use. */
  lemma PromotionPool(c: Control, primary: string, epoch: int)
    requires Ok(c)
    ensures PromotionContext(c, primary, epoch) <==> Matches(c, primary, epoch, Promoting) && primary in c.nodes
    ensures PickBackup(c, primary, epoch).1.Chosen? ==>
      var backup := PickBackup(c, primary, epoch).1.backup;
      && backup in c.assignment.value.eligible && backup in c.nodes && backup != primary
      && backup !in c.assignment.value.attempted
    ensures PickBackup(c, primary, epoch).1.Exhausted? ==>
      forall k :: k in c.assignment.value.eligible && k in c.nodes && k != primary ==> k in c.assignment.value.attempted
  {
    if Matches(c, primary, epoch, Promoting) {
      var a := c.assignment.value;
      assert a.eligible != {};
      assert forall k :: k in a.eligible && k != primary && k in c.nodes && k !in a.attempted ==>
          k in Backups(c.nodes, primary, a);
    }
  }

  /** The failure of an active backup never meets an assignment that is already reprotecting. */
  lemma ActiveBackupStatus(c: Control, address: string)
    requires Ok(c) && c.assignment.Some? && c.assignment.value.backup == Some(address)
    requires address in c.nodes
    ensures Evict(c, address).1.BackupLost? || Evict(c, address).1.Reprotection?
    ensures Evict(c, address).1.BackupLost? <==> c.assignment.value.status == Promoting
  {
  }

  // ---------------------------------------------------------------- epochs

  /** Whatever epoch a replica ever reported, the controller has reached it from then on. */
  lemma ReportedEpochsReached(before: seq<Event>, request: RegisterRequest, events: seq<Event>)
    requires Strip(request.address) != ""
    ensures var c := After(Started(), before);
      && request.epoch <= Register(c, request).1.epoch
      && request.epoch <= After(Register(c, request).0, events).lastEpoch
      && Register(c, request).1.epoch <= After(Register(c, request).0, events).lastEpoch
  {
    var c := After(Started(), before);
    AfterOk(Started(), before);
    RegisterOk(c, request);
    AfterOk(Register(c, request).0, events);
  }

  /** No two elections of an interleaving use the same epoch. */
  lemma ElectionsUseFreshEpochs(before: seq<Event>, first: Option<set<string>>, events: seq<Event>,
      second: Option<set<string>>)
    requires Elect(After(Started(), before), first).1.Some?
    requires Elect(After(Elect(After(Started(), before), first).0, events), second).1.Some?
    ensures Elect(After(Started(), before), first).1.value.epoch <
            Elect(After(Elect(After(Started(), before), first).0, events), second).1.value.epoch
  {
    var c := After(Started(), before);
    AfterOk(Started(), before);
    ElectOk(c, first);
    ElectionDecides(c, first);
    AfterOk(Elect(c, first).0, events);
    ElectionDecides(After(Elect(c, first).0, events), second);
  }
}
