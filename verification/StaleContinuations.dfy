/** Replies that arrive late: which attempt they belong to decides whether they may change anything. */
module StaleContinuations {
  import opened Text
  import opened Controller
  import opened ControllerInvariant

  // ---------------------------------------------------------------- a ready assignment

  predicate IsReady(c: Control)
  {
    c.assignment.Some? && c.assignment.value.status == Ready
  }

  /** Everything but registration, heartbeats and eviction continues some earlier attempt. */
  predicate Continuation(ev: Event)
  {
    !ev.Registered? && !ev.Beat? && !ev.Missed? && !ev.Evicted?
  }

  /** On a ready assignment no continuation of any attempt changes anything at all. */
  lemma ContinuationsIdleWhenReady(c: Control, ev: Event)
    requires Ok(c) && IsReady(c) && Continuation(ev)
    ensures Next(c, ev) == c
  {
  }

  /**
   * What ends a ready assignment: its backup is lost or unready, its primary is evicted, or a higher epoch shows up.
   */
  predicate EndsReady(c: Control, ev: Event)
    requires IsReady(c)
  {
    var a := c.assignment.value;
    match ev
    case Registered(request) =>
      && Strip(request.address) != ""
      && (|| ReportedEpoch(request) > a.epoch
          || (a.backup == Some(Strip(request.address))
                && !ReadyBackup(request.role, request.ready, ReportedEpoch(request), a)))
    case Beat(address, pulse) =>
      address in c.nodes && a.backup == Some(address) && !ReadyBackup(pulse.role, pulse.ready, pulse.epoch, a)
    case Evicted(address) => address in c.nodes && (address == a.primary || a.backup == Some(address))
    case _ => false
  }

  /** A ready assignment changes exactly on one of those causes. */
  lemma ReadyEndsIff(c: Control, ev: Event)
    requires Ok(c) && IsReady(c)
    ensures Next(c, ev).assignment == c.assignment <==> !EndsReady(c, ev)
  {
  }

  /** An assignment becomes ready only through the attempt that was validated, or a proven recovery. */
  lemma BecomesReadyOnlyBy(c: Control, ev: Event)
    requires Ok(c) && !IsReady(c) && IsReady(Next(c, ev))
    ensures ev.Activated? || ev.Registered?
    ensures ev.Activated? ==>
      && Live(c, ev.ticket)
      && Next(c, ev).assignment ==
           Some(c.assignment.value.(status := Ready, backup := Some(ev.ticket.backup), candidate := None))
    ensures ev.Registered? ==>
      var a := Next(c, ev).assignment.value;
      && a.primary == Strip(ev.request.address) && a.epoch == ev.request.epoch && ev.request.ready
      && a.backup == Some(Strip(ev.request.backupAddress)) && a.backup.value in Next(c, ev).nodes
      && Next(c, ev).nodes[a.backup.value].synced && Next(c, ev).nodes[a.backup.value].syncedEpoch == a.epoch
  {
  }

  // ---------------------------------------------------------------- attempts within one assignment

  predicate Same(c: Control, t: Ticket)
  {
    c.assignment.Some? && c.assignment.value.primary == t.primary && c.assignment.value.epoch == t.epoch
  }

  /** The ticket was issued by this assignment at an earlier moment, or now. */
  predicate Issued(a: Assignment, t: Ticket)
  {
    && t.generation <= a.generation
    && (t.status == Promoting ==> a.status == Promoting ==> t.backup in a.attempted)
    && (t.status == Reprotecting ==>
          && a.status != Promoting
          && (t.generation == a.generation ==> a.candidate.None? || a.candidate == Some(t.backup)))
    && t.status != Ready
  }

  /** The ticket belongs to the past of the current assignment, or to a superseded epoch. */
  predicate Known(c: Control, t: Ticket)
  {
    t.epoch < c.lastEpoch || (Same(c, t) && Issued(c.assignment.value, t))
  }

  predicate Stale(c: Control, t: Ticket)
  {
    Known(c, t) && !Live(c, t)
  }

  lemma TicketsAreKnown(c: Control, replica: string, source: string, epoch: int)
    requires Ok(c)
    ensures var (c', t) := ReportSync(c, replica, source, epoch); t.Some? ==> Known(c', t.value) && Live(c', t.value)
    ensures var (c', t) := PickReplacement(c, source, epoch); t.Some? ==> Known(c', t.value) && Live(c', t.value)
  {
  }

  /** The assignment was not dropped with its epoch still the newest. */
  predicate Unbroken(c: Control, epoch: int)
  {
    c.assignment.Some? || epoch < c.lastEpoch
  }

  /** Events that concern members as such: registration, heartbeats, eviction. */
  predicate MembershipEvent(ev: Event)
  {
    ev.Registered? || ev.Beat? || ev.Missed? || ev.Evicted?
  }

  predicate AttemptEvent(ev: Event)
  {
    ev.SyncReported? || ev.Activated? || ev.Rejected? || ev.ReplacementSought? || ev.DispatchLost?
  }

  /** A registration either leaves the assignment to the same attempt or raises the epoch. */
  lemma RegistrationKeeps(c: Control, request: RegisterRequest)
    requires Ok(c) && c.assignment.Some?
    ensures var c' := Register(c, request).0;
      || c'.lastEpoch > c.lastEpoch
      || (c'.lastEpoch == c.lastEpoch && c'.assignment.Some?
          && var a, b := c.assignment.value, c'.assignment.value;
             || b == a || b == Revoked(a)
             || (a.status == Reprotecting && a.candidate.None? && b == a.(attempted := b.attempted)))
  {
  }

  lemma MembershipKeepsKnown(c: Control, ev: Event, t: Ticket)
    requires Ok(c) && Known(c, t) && Unbroken(Next(c, ev), t.epoch) && MembershipEvent(ev)
    ensures Known(Next(c, ev), t)
  {
    NextOk(c, ev);
    if ev.Registered? && c.assignment.Some? {
      RegistrationKeeps(c, ev.request);
    }
  }

  lemma AttemptKeepsKnown(c: Control, ev: Event, t: Ticket)
    requires Ok(c) && Known(c, t) && Unbroken(Next(c, ev), t.epoch) && AttemptEvent(ev)
    ensures Known(Next(c, ev), t)
  {
  }

  lemma PromotionKeepsKnown(c: Control, ev: Event, t: Ticket)
    requires Ok(c) && Known(c, t) && Unbroken(Next(c, ev), t.epoch) && !MembershipEvent(ev) && !AttemptEvent(ev)
    ensures Known(Next(c, ev), t)
  {
  }

  lemma StaysKnown(c: Control, ev: Event, t: Ticket)
    requires Ok(c) && Known(c, t) && Unbroken(Next(c, ev), t.epoch)
    ensures Known(Next(c, ev), t)
  {
    if MembershipEvent(ev) {
      MembershipKeepsKnown(c, ev, t);
    } else if AttemptEvent(ev) {
      AttemptKeepsKnown(c, ev, t);
    } else {
      PromotionKeepsKnown(c, ev, t);
    }
  }

  // ---------------------------------------------------------------- when a superseded attempt comes back

  /** The event is the choice that hands out exactly this ticket. */
  predicate Issues(c: Control, ev: Event, t: Ticket)
  {
    match t.status
    case Reprotecting =>
      ev == ReplacementSought(t.primary, t.epoch) && PickReplacement(c, t.primary, t.epoch).1 == Some(t)
    case Promoting =>
      ev == BackupSought(t.primary, t.epoch) && PickBackup(c, t.primary, t.epoch).1 == Chosen(t.backup)
          && t.generation == 0
    case Ready => false
  }

  lemma MembershipRevivesNone(c: Control, ev: Event, t: Ticket)
    requires Ok(c) && !Live(c, t) && MembershipEvent(ev)
    ensures !Live(Next(c, ev), t)
  {
    if ev.Registered? && c.assignment.Some? {
      RegisterOk(c, ev.request);
      RegistrationKeeps(c, ev.request);
    }
  }

  lemma AttemptRevivesIff(c: Control, ev: Event, t: Ticket)
    requires Ok(c) && !Live(c, t) && AttemptEvent(ev)
    ensures Live(Next(c, ev), t) <==> Issues(c, ev, t)
  {
  }

  lemma PromotionRevivesIff(c: Control, ev: Event, t: Ticket)
    requires Ok(c) && !Live(c, t) && !MembershipEvent(ev) && !AttemptEvent(ev)
    ensures Live(Next(c, ev), t) <==> Issues(c, ev, t)
  {
  }

  /** A step makes a superseded attempt current again exactly when it hands out an identical ticket. */
  lemma RevivedIff(c: Control, ev: Event, t: Ticket)
    requires Ok(c) && !Live(c, t)
    ensures Live(Next(c, ev), t) <==> Issues(c, ev, t)
  {
    if MembershipEvent(ev) {
      MembershipRevivesNone(c, ev, t);
    } else if AttemptEvent(ev) {
      AttemptRevivesIff(c, ev, t);
    } else {
      PromotionRevivesIff(c, ev, t);
    }
  }

  predicate LiveThroughout(c: Control, events: seq<Event>, t: Ticket)
    decreases |events|
  {
    Live(c, t) && (events == [] || LiveThroughout(Next(c, events[0]), events[1..], t))
  }

  /** An identical ticket is handed out somewhere along the events and stays current to their end. */
  predicate Reissued(c: Control, events: seq<Event>, t: Ticket)
    decreases |events|
  {
    events != []
    && (|| (Issues(c, events[0], t) && LiveThroughout(Next(c, events[0]), events[1..], t))
        || Reissued(Next(c, events[0]), events[1..], t))
  }

  lemma {:induction false} LiveAtEnd(c: Control, events: seq<Event>, t: Ticket)
    requires Ok(c)
    ensures LiveThroughout(c, events, t) ==> Live(After(c, events), t)
    ensures Live(After(c, events), t) <==> LiveThroughout(c, events, t) || Reissued(c, events, t)
    decreases |events|
  {
    if events != [] {
      NextOk(c, events[0]);
      LiveAtEnd(Next(c, events[0]), events[1..], t);
      if !Live(c, t) {
        RevivedIff(c, events[0], t);
      }
      EndsIffReissued(c, events, t);
    }
  }

  lemma EndsIffReissued(c: Control, events: seq<Event>, t: Ticket)
    requires Ok(c) && events != []
    ensures LiveThroughout(Next(c, events[0]), events[1..], t) ==>
      LiveThroughout(c, events, t) || Issues(c, events[0], t)
  {
    if LiveThroughout(Next(c, events[0]), events[1..], t) && !Live(c, t) {
      RevivedIff(c, events[0], t);
    }
  }

  /** What a late completion, rejection or dispatch failure of the attempt does. */
  predicate AttemptActs(c: Control, t: Ticket)
  {
    || Activate(c, t) != (c, false)
    || (t.status == Reprotecting && (RejectReplacement(c, t) != c || DispatchFailed(c, t) != c))
  }

  /**
   * A superseded attempt changes something after whatever events exactly when an identical ticket was handed out
   * again in between and is still current.
   */
  lemma SupersededActsIffReissued(c: Control, t: Ticket, events: seq<Event>)
    requires Ok(c) && !Live(c, t)
    ensures AttemptActs(After(c, events), t) <==> Reissued(c, events, t)
  {
    LiveAtEnd(c, events, t);
    ActsIffLive(After(c, events), t);
  }

  lemma ActsIffLive(c: Control, t: Ticket)
    ensures AttemptActs(c, t) <==> Live(c, t)
  {
  }

  /** An assignment that is not dropped at its epoch hands out no ticket twice. */
  lemma NeverReissued(c: Control, ev: Event, t: Ticket)
    requires Ok(c) && Known(c, t) && Unbroken(Next(c, ev), t.epoch)
    ensures !Issues(c, ev, t) || Live(c, t)
  {
  }

  predicate UnbrokenRun(c: Control, events: seq<Event>, epoch: int)
    decreases |events|
  {
    events == [] || (Unbroken(Next(c, events[0]), epoch) && UnbrokenRun(Next(c, events[0]), events[1..], epoch))
  }

  /** So unless its assignment is dropped, no completion or failure of a superseded attempt changes anything, ever. */
  lemma {:induction false} StaleForever(c: Control, t: Ticket, events: seq<Event>)
    requires Ok(c) && Stale(c, t) && UnbrokenRun(c, events, t.epoch)
    ensures !AttemptActs(After(c, events), t)
    decreases |events|
  {
    if events == [] {
      ActsIffLive(c, t);
    } else {
      NextOk(c, events[0]);
      StaysKnown(c, events[0], t);
      NeverReissued(c, events[0], t);
      RevivedIff(c, events[0], t);
      StaleForever(Next(c, events[0]), t, events[1..]);
    }
  }

  // ---------------------------------------------------------------- late failures of a promotion

  /** Each failure handler of a promotion changes something exactly when that promotion is the current assignment. */
  lemma LateFailureActsIff(c: Control, primary: string, epoch: int, backup: string)
    requires Ok(c)
    ensures Abandon(c, primary, epoch) != c <==> Matches(c, primary, epoch, Promoting)
    ensures CandidateFailed(c, primary, epoch).0 != c <==> Matches(c, primary, epoch, Promoting)
    ensures BackupFailed(c, primary, epoch, backup).0 != c <==>
      Matches(c, primary, epoch, Promoting) && c.assignment.value.backup == Some(backup)
  {
  }

  /** A promotion that is over never becomes current again: its epoch was used up by its election. */
  lemma PromotionNeverResumes(c: Control, ev: Event, primary: string, epoch: int)
    requires Ok(c) && epoch <= c.lastEpoch && !Matches(c, primary, epoch, Promoting)
    ensures !Matches(Next(c, ev), primary, epoch, Promoting)
  {
    if ev.Registered? && c.assignment.Some? {
      RegisterOk(c, ev.request);
      RegistrationKeeps(c, ev.request);
    }
  }

  predicate PromotingThroughout(c: Control, events: seq<Event>, primary: string, epoch: int)
    decreases |events|
  {
    && Matches(c, primary, epoch, Promoting)
    && (events == [] || PromotingThroughout(Next(c, events[0]), events[1..], primary, epoch))
  }

  lemma {:induction false} PromotingAtEnd(c: Control, events: seq<Event>, primary: string, epoch: int)
    requires Ok(c) && epoch <= c.lastEpoch
    ensures Matches(After(c, events), primary, epoch, Promoting) <==> PromotingThroughout(c, events, primary, epoch)
    decreases |events|
  {
    if events != [] {
      NextOk(c, events[0]);
      PromotingAtEnd(Next(c, events[0]), events[1..], primary, epoch);
      if !Matches(c, primary, epoch, Promoting) {
        PromotionNeverResumes(c, events[0], primary, epoch);
      }
    }
  }

  /** A late failure changes something exactly when that very promotion has been running all the time since. */
  lemma LateFailureActsIffStillPromoting(c: Control, events: seq<Event>, primary: string, epoch: int)
    requires Ok(c) && Matches(c, primary, epoch, Promoting)
    ensures var later := After(c, events);
      && (Abandon(later, primary, epoch) != later <==> PromotingThroughout(c, events, primary, epoch))
      && (CandidateFailed(later, primary, epoch).0 != later <==> PromotingThroughout(c, events, primary, epoch))
  {
    PromotingAtEnd(c, events, primary, epoch);
    AfterOk(c, events);
    LateFailureActsIff(After(c, events), primary, epoch, "");
  }

  /** The promotion is synchronizing with this backup. */
  predicate Synchronizing(c: Control, primary: string, epoch: int, backup: string)
  {
    Matches(c, primary, epoch, Promoting) && c.assignment.value.backup == Some(backup)
  }

  /** A backup that was tried and given up: it stays among the attempted ones for as long as the promotion lasts. */
  predicate Tried(c: Control, primary: string, epoch: int, backup: string)
  {
    && epoch <= c.lastEpoch
    && (Matches(c, primary, epoch, Promoting) ==> backup in c.assignment.value.attempted)
  }

  lemma StaysTried(c: Control, ev: Event, primary: string, epoch: int, backup: string)
    requires Ok(c) && Tried(c, primary, epoch, backup)
    ensures Tried(Next(c, ev), primary, epoch, backup)
    ensures !Synchronizing(c, primary, epoch, backup) ==> !Synchronizing(Next(c, ev), primary, epoch, backup)
  {
    NextOk(c, ev);
    if !Matches(c, primary, epoch, Promoting) {
      PromotionNeverResumes(c, ev, primary, epoch);
    } else if ev.Registered? {
      RegistrationKeeps(c, ev.request);
    }
  }

  predicate SynchronizingThroughout(c: Control, events: seq<Event>, primary: string, epoch: int, backup: string)
    decreases |events|
  {
    && Synchronizing(c, primary, epoch, backup)
    && (events == [] || SynchronizingThroughout(Next(c, events[0]), events[1..], primary, epoch, backup))
  }

  lemma {:induction false} SynchronizingAtEnd(c: Control, events: seq<Event>, primary: string, epoch: int,
      backup: string)
    requires Ok(c) && Tried(c, primary, epoch, backup)
    ensures Synchronizing(After(c, events), primary, epoch, backup) <==>
            SynchronizingThroughout(c, events, primary, epoch, backup)
    decreases |events|
  {
    if events != [] {
      NextOk(c, events[0]);
      StaysTried(c, events[0], primary, epoch, backup);
      SynchronizingAtEnd(Next(c, events[0]), events[1..], primary, epoch, backup);
    }
  }

  /** The late failure of a promotion's backup changes something exactly when it is that backup's turn still. */
  lemma LateBackupFailureActsIff(c: Control, events: seq<Event>, primary: string, epoch: int, backup: string)
    requires Ok(c) && Synchronizing(c, primary, epoch, backup)
    ensures var later := After(c, events);
      BackupFailed(later, primary, epoch, backup).0 != later <==>
        SynchronizingThroughout(c, events, primary, epoch, backup)
  {
    SynchronizingAtEnd(c, events, primary, epoch, backup);
    AfterOk(c, events);
    LateFailureActsIff(After(c, events), primary, epoch, backup);
  }

  // ---------------------------------------------------------------- generations

  predicate NextGeneration(a: Assignment, b: Assignment, sought: bool)
  {
    && b.primary == a.primary
    && b.generation == a.generation + (if b.candidate.Some? && b.candidate != a.candidate then 1 else 0)
    && (b.candidate.Some? && b.candidate != a.candidate ==> sought && b.candidate.value !in a.attempted)
  }

  lemma MembershipKeepsGeneration(c: Control, ev: Event)
    requires Ok(c) && c.assignment.Some? && Next(c, ev).assignment.Some? && MembershipEvent(ev)
    requires Next(c, ev).assignment.value.epoch == c.assignment.value.epoch
    ensures NextGeneration(c.assignment.value, Next(c, ev).assignment.value, false)
  {
    NextOk(c, ev);
    if ev.Registered? {
      RegistrationKeeps(c, ev.request);
    }
  }

  lemma OthersKeepGeneration(c: Control, ev: Event)
    requires Ok(c) && c.assignment.Some? && Next(c, ev).assignment.Some? && !MembershipEvent(ev)
    requires Next(c, ev).assignment.value.epoch == c.assignment.value.epoch
    ensures NextGeneration(c.assignment.value, Next(c, ev).assignment.value, ev.ReplacementSought?)
  {
  }

  /** Generations never fall within an assignment, and each new replacement attempt takes the next one. */
  lemma GenerationsIncrease(c: Control, ev: Event)
    requires Ok(c) && c.assignment.Some? && Next(c, ev).assignment.Some?
    requires Next(c, ev).assignment.value.epoch == c.assignment.value.epoch
    ensures NextGeneration(c.assignment.value, Next(c, ev).assignment.value, ev.ReplacementSought?)
  {
    if MembershipEvent(ev) {
      MembershipKeepsGeneration(c, ev);
    } else {
      OthersKeepGeneration(c, ev);
    }
  }

  // ---------------------------------------------------------------- election after the loss of a primary

  /** Evicting the primary of a protected assignment calls for an election restricted to its backup. */
  lemma EvictionNominatesBackup(c: Control)
    requires Ok(c) && IsReady(c) && c.assignment.value.primary in c.nodes && c.assignment.value.backup.value in c.nodes
    ensures var (c', next) := Evict(c, c.assignment.value.primary);
      next == Election(Some({c.assignment.value.backup.value})) && c'.assignment.None? && !c'.electing
  {
  }

  /** Whenever that election runs, whatever happened in between, it elects that backup at a fresh epoch or nobody. */
  lemma NominationElectsOnlyBackup(c: Control, events: seq<Event>)
    requires Ok(c) && IsReady(c) && c.assignment.value.primary in c.nodes && c.assignment.value.backup.value in c.nodes
    ensures var a := c.assignment.value;
      var (evicted, next) := Evict(c, a.primary);
      var later := After(evicted, events);
      && next.Election?
      && (match Elect(later, next.eligible).1
          case Some(worker) => worker.primary == a.backup.value && worker.epoch == later.lastEpoch + 1 > c.lastEpoch
          case None => Elect(later, next.eligible).0 == later)
      && (events == [] ==> Elect(later, next.eligible).1.Some?)
  {
    var evicted := Evict(c, c.assignment.value.primary).0;
    NextOk(c, Evicted(c.assignment.value.primary));
    EvictionNominatesBackup(c);
    AfterOk(evicted, events);
    ElectionDecides(After(evicted, events), Some({c.assignment.value.backup.value}));
    if events == [] {
      assert c.assignment.value.backup.value in {c.assignment.value.backup.value} * evicted.nodes.Keys;
    }
  }
}
