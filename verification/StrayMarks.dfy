/**
 * Marks of synchronization that outlive the attempt they were given for: where they come from, what removes them,
 * and when an election that is not restricted follows one.
 */
module StrayMarks {
  import opened Text
  import opened Controller
  import opened ControllerInvariant

  /** The replica counts as synchronized at the last epoch, which makes it electable. */
  predicate Marked(c: Control, k: string)
  {
    k in c.nodes && c.nodes[k].synced && c.nodes[k].syncedEpoch == c.lastEpoch
  }

  /** It is the active backup or the candidate of the current attempt. */
  predicate Serves(c: Control, k: string)
  {
    c.assignment.Some? && (c.assignment.value.backup == Some(k) || c.assignment.value.candidate == Some(k))
  }

  predicate Stray(c: Control, k: string)
  {
    Marked(c, k) && !Serves(c, k)
  }

  /** The event takes the replica out of service, or admits it while nothing is assigned, and leaves its mark. */
  predicate Leaves(c: Control, ev: Event, k: string)
  {
    match ev
    case DispatchLost(t) => k == t.backup && Marked(c, k) && DispatchFailed(c, t) != c
    case BackupSought(primary, epoch) =>
      && Matches(c, primary, epoch, Promoting) && c.assignment.value.backup == Some(k) && Marked(c, k)
      && PickBackup(c, primary, epoch).1.Chosen?
    case Beat(address, pulse) =>
      && k == address && Marked(c, k) && c.assignment.Some? && c.assignment.value.status == Ready
      && c.assignment.value.backup == Some(address)
      && !ReadyBackup(pulse.role, pulse.ready, pulse.epoch, c.assignment.value)
    case Evicted(address) =>
      address in c.nodes && c.assignment.Some? && c.assignment.value.primary == address && Serves(c, k) && Marked(c, k)
    case Registered(request) =>
      && k != "" && k == Strip(request.address) && request.role == "backup" && request.ready
      && (if c.assignment.None? then request.epoch > 0 && request.epoch >= c.lastEpoch
          else request.epoch > c.lastEpoch && Serves(c, k))
    case _ => false
  }

  /** The event takes a stray mark away. */
  predicate Clears(c: Control, ev: Event, k: string)
  {
    match ev
    case ReplacementSought(primary, epoch) =>
      var ticket := PickReplacement(c, primary, epoch).1;
      ticket.Some? && ticket.value.backup == k
    case BackupSought(primary, epoch) => PickBackup(c, primary, epoch).1 == Chosen(k)
    case Elected(eligible) => Elect(c, eligible).1.Some?
    case PromotionFailed(primary, epoch) => Matches(c, primary, epoch, Promoting)
    case Abandoned(primary, epoch) => Matches(c, primary, epoch, Promoting)
    case Evicted(address) => address == k
    case Registered(request) =>
      var address := Strip(request.address);
      && address != ""
      && (|| (k == address && !Leaves(c, ev, k))
          || (k != address && request.epoch > c.lastEpoch)
          || (k != address && c.assignment.None? && k == Strip(request.backupAddress)
              && Protected(Enrolled(c, address, request), address, request)))
    case _ => false
  }

  predicate Expectation(c: Control, ev: Event, k: string)
  {
    Leaves(c, ev, k) || (Stray(c, k) && !Clears(c, ev, k))
  }

  lemma RegisteredLater(c: Control, request: RegisterRequest, k: string)
    requires Ok(c) && c.assignment.Some? && Strip(request.address) != "" && request.epoch > c.lastEpoch
    ensures Stray(Register(c, request).0, k) <==> Expectation(c, Registered(request), k)
  {
  }

  lemma RegisteredInTime(c: Control, request: RegisterRequest, k: string)
    requires Ok(c) && c.assignment.Some? && Strip(request.address) != "" && request.epoch <= c.lastEpoch
    ensures Stray(Register(c, request).0, k) <==> Expectation(c, Registered(request), k)
  {
  }

  lemma RegisteredWhileAssigned(c: Control, request: RegisterRequest, k: string)
    requires Ok(c) && c.assignment.Some?
    ensures Stray(Register(c, request).0, k) <==> Expectation(c, Registered(request), k)
  {
    if Strip(request.address) != "" {
      if request.epoch > c.lastEpoch {
        RegisteredLater(c, request, k);
      } else {
        RegisteredInTime(c, request, k);
      }
    }
  }

  lemma RegisteredWhileVacant(c: Control, request: RegisterRequest, k: string)
    requires Ok(c) && c.assignment.None?
    ensures Stray(Register(c, request).0, k) <==> Expectation(c, Registered(request), k)
  {
  }

  lemma AttemptsAndMarks(c: Control, ev: Event, k: string)
    requires Ok(c)
    requires ev.SyncReported? || ev.Activated? || ev.Rejected? || ev.DispatchLost? || ev.ReplacementSought?
    ensures Stray(Next(c, ev), k) <==> Expectation(c, ev, k)
  {
  }

  lemma PromotionsAndMarks(c: Control, ev: Event, k: string)
    requires Ok(c)
    requires ev.Elected? || ev.BackupSought? || ev.PromotionFailed? || ev.SyncFailed? || ev.Abandoned?
    ensures Stray(Next(c, ev), k) <==> Expectation(c, ev, k)
  {
  }

  lemma HealthAndMarks(c: Control, ev: Event, k: string)
    requires Ok(c) && (ev.Beat? || ev.Missed? || ev.Evicted?)
    ensures Stray(Next(c, ev), k) <==> Expectation(c, ev, k)
  {
  }

  /** A stray mark is there after an event exactly when the event left it, or it was there and not cleared. */
  lemma StrayNextIff(c: Control, ev: Event, k: string)
    requires Ok(c)
    ensures Stray(Next(c, ev), k) <==> Leaves(c, ev, k) || (Stray(c, k) && !Clears(c, ev, k))
  {
    if ev.Registered? {
      if c.assignment.Some? {
        RegisteredWhileAssigned(c, ev.request, k);
      } else {
        RegisteredWhileVacant(c, ev.request, k);
      }
    } else if ev.Beat? || ev.Missed? || ev.Evicted? {
      HealthAndMarks(c, ev, k);
    } else if ev.Elected? || ev.BackupSought? || ev.PromotionFailed? || ev.SyncFailed? || ev.Abandoned? {
      PromotionsAndMarks(c, ev, k);
    } else {
      AttemptsAndMarks(c, ev, k);
    }
  }

  /** The mark was left at some moment of the events and not cleared from then to their end. */
  predicate LeftBehind(c: Control, events: seq<Event>, k: string)
    decreases |events|
  {
    events != []
    && (|| LeftBehind(Next(c, events[0]), events[1..], k)
        || (Leaves(c, events[0], k) && Uncleared(Next(c, events[0]), events[1..], k)))
  }

  predicate Uncleared(c: Control, events: seq<Event>, k: string)
    decreases |events|
  {
    events == [] || (!Clears(c, events[0], k) && Uncleared(Next(c, events[0]), events[1..], k))
  }

  /**
   * After any events there is a stray mark exactly when one was there from the start or was left, and none cleared it.
   */
  lemma {:induction false} StrayAfterIff(c: Control, events: seq<Event>, k: string)
    requires Ok(c)
    ensures Stray(After(c, events), k) <==> (Stray(c, k) && Uncleared(c, events, k)) || LeftBehind(c, events, k)
    decreases |events|
  {
    if events != [] {
      NextOk(c, events[0]);
      StrayNextIff(c, events[0], k);
      StrayAfterIff(Next(c, events[0]), events[1..], k);
      if Leaves(c, events[0], k) {
        LeftIsUncleared(c, events, k);
      }
    }
  }

  /** A mark that an event leaves is not one the same event clears. */
  lemma LeftIsUncleared(c: Control, events: seq<Event>, k: string)
    requires Ok(c) && events != [] && Leaves(c, events[0], k)
    ensures !Clears(c, events[0], k)
  {
  }

  // ---------------------------------------------------------------- whom the unrestricted election follows

  /** No marked replica but the evicted primary sorts before this one. */
  ghost predicate FirstMarked(c: Control, evicted: string, k: string)
  {
    Marked(c, k) && k != evicted && forall j :: Marked(c, j) && j != evicted ==> Leq(k, j)
  }

  /** After the loss of a primary the unrestricted election elects exactly the first marked replica. */
  lemma UnrestrictedElects(c: Control, k: string)
    requires Ok(c) && c.assignment.Some? && c.assignment.value.primary in c.nodes
    ensures var p := c.assignment.value.primary;
      Elect(Evict(c, p).0, None).1 == Some(Worker(k, c.lastEpoch + 1)) <==> FirstMarked(c, p, k)
  {
    var p := c.assignment.value.primary;
    var vacant := Evict(c, p).0;
    EvictOk(c, p);
    forall j ensures j in Electable(vacant) <==> Marked(c, j) && j != p {
      assert j in vacant.nodes ==> vacant.nodes[j] == c.nodes[j];
    }
    if FirstMarked(c, p, k) {
      assert Least(Electable(vacant), k);
      LeastUnique(Electable(vacant), k, First(Electable(vacant)).value);
    }
  }

  /** It elects a superseded replica exactly when a stray mark is the first electable one. */
  lemma ElectsSupersededIff(c: Control, k: string)
    requires Ok(c) && c.assignment.Some? && c.assignment.value.primary in c.nodes
    ensures var p := c.assignment.value.primary;
      Elect(Evict(c, p).0, None).1 == Some(Worker(k, c.lastEpoch + 1)) && !Serves(c, k) <==>
        Stray(c, k) && FirstMarked(c, p, k)
  {
    UnrestrictedElects(c, k);
  }

  /** It elects the active backup exactly when that is marked and sorts before every stray mark. */
  lemma ElectsActiveBackupIff(c: Control)
    requires Ok(c) && c.assignment.Some? && c.assignment.value.status == Ready && c.assignment.value.primary in c.nodes
    ensures var a := c.assignment.value;
      Elect(Evict(c, a.primary).0, None).1 == Some(Worker(a.backup.value, c.lastEpoch + 1)) <==>
        Marked(c, a.backup.value) && forall k :: Stray(c, k) && k != a.primary ==> Leq(a.backup.value, k)
  {
    var a := c.assignment.value;
    UnrestrictedElects(c, a.backup.value);
    LeqTotal(a.backup.value, a.backup.value);
    assert forall j :: Marked(c, j) && j != a.backup.value ==> Stray(c, j);
    assert forall j :: Stray(c, j) ==> Marked(c, j);
  }

  /**
   * With the backup lost before its primary it elects somebody exactly when a stray mark remains, and then that one.
   */
  lemma ElectsAfterBothLostIff(c: Control, k: string)
    requires Ok(c) && c.assignment.Some? && c.assignment.value.status == Ready
    requires c.assignment.value.primary in c.nodes && c.assignment.value.backup.value in c.nodes
    ensures var a := c.assignment.value;
      var alone := Evict(c, a.backup.value).0;
      Elect(Evict(alone, a.primary).0, None).1 == Some(Worker(k, c.lastEpoch + 1)) <==>
        Stray(c, k) && k != a.primary && forall j :: Stray(c, j) && j != a.primary ==> Leq(k, j)
  {
    var a := c.assignment.value;
    var alone := Evict(c, a.backup.value).0;
    EvictOk(c, a.backup.value);
    UnrestrictedElects(alone, k);
    forall j ensures Marked(alone, j) <==> Stray(c, j) {
      assert j in alone.nodes <==> j in c.nodes && j != a.backup.value;
    }
  }
}
