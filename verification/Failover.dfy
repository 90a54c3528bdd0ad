/** A complete failover, step by step, and the retry that follows it. */
module Failover {
  import opened Text
  import opened AuctionDomain
  import opened AuctionLog
  import opened Replica
  import opened LocalInvariant
  import opened Cluster
  import opened PairInvariant
  import opened ClusterInvariant
  import opened MutationSteps
  import opened ConfigSteps
  import opened Durability

  /** What the target of the synchronization will hold: the stores of the designated backup. */
  function BackupState(w: World): FullState
    requires w.config.backup in w.replicas
  {
    FullState(w.replicas[w.config.backup].auctions, w.replicas[w.config.backup].records)
  }

  /** Promote the designated backup at a new epoch, copy its state to `target`, and let it complete. */
  function FailoverEvents(w: World, epoch: int, target: string): seq<Event>
    requires w.config.backup in w.replicas
  {
    [StartPromotion(epoch), SendBegin(true), Fetch(target), Install(Copy(target, BackupState(w), epoch), true),
     Call(target), TakeComplete(Completion(w.config.backup, target, epoch), true)]
  }

  predicate Spare(w: World, target: string)
  {
    && target in w.replicas && target != w.config.backup
    && w.replicas[target].role == Backup && Id(target)
  }

  /** Nothing a client or a mutation can see differs. */
  predicate SameService(w: World, w': World)
  {
    w'.ops == w.ops && w'.acked == w.acked
  }

  lemma BeginAccepted(w: World, epoch: int)
    requires Inv(w) && w.config.mode == Promoting(epoch, false, None)
    ensures Enabled(w, SendBegin(true))
    ensures var w' := Next(w, SendBegin(true));
      var x := w'.replicas[w.config.backup];
      && w'.config == w.config.(mode := Promoting(epoch, true, None))
      && w'.ops == w.ops && w'.acked == w.acked
      && w'.replicas == w.replicas[w.config.backup := x]
      && x.role == Primary && x.epoch == epoch && x.prepared == map[] && x.pending == map[] && !x.ready
  {
    assert Placed(w.config.backup, w.replicas[w.config.backup]);
  }

  lemma StateFetched(w: World, target: string)
    requires Inv(w) && w.config.mode.Promoting? && w.config.mode.begun && Spare(w, target)
    requires var x := w.replicas[w.config.backup]; x.role == Primary && x.prepared == map[] && x.pending == map[]
    ensures Enabled(w, Fetch(target))
    ensures var w' := Next(w, Fetch(target));
      && w'.config == w.config.(mode := w.config.mode.(sync := Some(Sync(target, BackupState(w), false))))
      && w'.replicas == w.replicas && SameService(w, w')
      && Copy(target, BackupState(w), w.config.mode.promotedEpoch) in w'.copies
  {
    var x := w.replicas[w.config.backup];
    assert Sound(x);
    SoundStateInstalls(x);
    BackupIsIdle(w);
  }

  lemma StateInstalled(w: World, copy: Copy)
    requires Inv(w) && w.config.mode.Promoting? && Spare(w, copy.target)
    requires CurrentCopy(w.config, copy) && copy in w.copies
    ensures Enabled(w, Install(copy, true))
    ensures var w' := Next(w, Install(copy, true));
      && w'.config == w.config.(mode := w.config.mode.(sync := Some(w.config.mode.sync.value.(installed := true))))
      && SameService(w, w')
      && w'.replicas[w.config.backup] == w.replicas[w.config.backup]
      && w'.replicas.Keys == w.replicas.Keys
  {
    assert Sound(w.replicas[w.config.backup]);
    SoundStateInstalls(w.replicas[w.config.backup]);
  }

  lemma PairActivated(w: World, call: Completion)
    requires Inv(w) && w.config.mode.Promoting? && Id(call.target)
    requires CurrentCall(w.config, call) && call in w.calls
    requires w.replicas[w.config.backup].role == Primary && w.replicas[w.config.backup].pending == map[]
    ensures Enabled(w, TakeComplete(call, true))
    ensures var w' := Next(w, TakeComplete(call, true));
      && w'.config == Config(w.config.backup, call.target, w.config.mode.promotedEpoch, Ready)
      && SameService(w, w')
      && w.config.backup in w'.replicas && w'.replicas[w.config.backup].pending == map[]
  {
    BackupIsIdle(w);
    assert Placed(w.config.backup, w.replicas[w.config.backup]);
  }

  // ---------------------------------------------------------------- runs in parts

  ghost predicate LeadsTo(w: World, events: seq<Event>, w': World)
  {
    Run(w, events) && After(w, events) == w'
  }

  lemma LeadsByTwo(u: World, first: Event, v: World, second: Event, w: World)
    requires Enabled(u, first) && Next(u, first) == v && Enabled(v, second) && Next(v, second) == w
    ensures LeadsTo(u, [first, second], w)
  {
    assert [second][1..] == [];
    assert LeadsTo(w, [], w);
    assert LeadsTo(v, [second], w);
    assert [first, second][1..] == [second];
  }

  lemma {:induction false} LeadsAppend(u: World, events: seq<Event>, v: World, more: seq<Event>, w: World)
    requires LeadsTo(u, events, v) && LeadsTo(v, more, w)
    ensures LeadsTo(u, events + more, w)
    decreases |events|
  {
    if events == [] {
      assert [] + more == more;
    } else {
      assert (events + more)[1..] == events[1..] + more;
      LeadsAppend(Next(u, events[0]), events[1..], v, more, w);
    }
  }

  lemma ReachedLeads(w: World, events: seq<Event>, w': World)
    requires Reached(w) && LeadsTo(w, events, w')
    ensures Reached(w')
  {
    var start, before :| Initial(start) && Run(start, before) && After(start, before) == w;
    LeadsAppend(start, before, w, events, w');
  }

  // ---------------------------------------------------------------- the stages of a failover

  /** The backup as it is right after accepting its promotion. */
  ghost predicate Candidate(w: World, epoch: int)
  {
    && Inv(w) && w.config.mode.Promoting? && w.config.mode.promotedEpoch == epoch && w.config.mode.begun
    && w.replicas[w.config.backup].role == Primary
    && w.replicas[w.config.backup].prepared == map[] && w.replicas[w.config.backup].pending == map[]
  }

  lemma BackupPromoted(w: World, epoch: int) returns (w': World)
    requires Inv(w) && w.config.mode.Ready? && epoch > w.config.epoch
    ensures LeadsTo(w, [StartPromotion(epoch), SendBegin(true)], w')
    ensures Candidate(w', epoch) && SameService(w, w')
    ensures w'.config == w.config.(mode := Promoting(epoch, true, None))
    ensures w'.replicas == w.replicas[w.config.backup := w'.replicas[w.config.backup]]
    ensures BackupState(w') == BackupState(w)
  {
    var planned := Next(w, StartPromotion(epoch));
    NextInv(w, StartPromotion(epoch));
    BeginAccepted(planned, epoch);
    NextInv(planned, SendBegin(true));
    w' := Next(planned, SendBegin(true));
    LeadsByTwo(w, StartPromotion(epoch), planned, SendBegin(true), w');
  }

  lemma TargetCopied(w: World, epoch: int, target: string) returns (w': World)
    requires Candidate(w, epoch) && Spare(w, target)
    ensures LeadsTo(w, [Fetch(target), Install(Copy(target, BackupState(w), epoch), true)], w')
    ensures Candidate(w', epoch) && SameService(w, w')
    ensures w'.config == w.config.(mode := w'.config.mode)
    ensures CurrentCall(w'.config, Completion(w.config.backup, target, epoch)) && target in w'.replicas
  {
    var copy := Copy(target, BackupState(w), epoch);
    StateFetched(w, target);
    var fetched := Next(w, Fetch(target));
    NextInv(w, Fetch(target));
    StateInstalled(fetched, copy);
    NextInv(fetched, Install(copy, true));
    w' := Next(fetched, Install(copy, true));
    LeadsByTwo(w, Fetch(target), fetched, Install(copy, true), w');
  }

  lemma PairCompleted(w: World, epoch: int, target: string) returns (w': World)
    requires Candidate(w, epoch) && Id(target) && target in w.replicas && target != w.config.backup
    requires CurrentCall(w.config, Completion(w.config.backup, target, epoch))
    ensures LeadsTo(w, [Call(target), TakeComplete(Completion(w.config.backup, target, epoch), true)], w')
    ensures w'.config == Config(w.config.backup, target, epoch, Ready) && SameService(w, w')
    ensures w.config.backup in w'.replicas && w'.replicas[w.config.backup].pending == map[]
  {
    var call := Completion(w.config.backup, target, epoch);
    var called := Next(w, Call(target));
    NextInv(w, Call(target));
    PairActivated(called, call);
    w' := Next(called, TakeComplete(call, true));
    LeadsByTwo(w, Call(target), called, TakeComplete(call, true), w');
  }

  /** From any pair that serves, the failover to its backup can run to completion. */
  lemma FailoverCompletes(w: World, epoch: int, target: string) returns (w': World)
    requires Inv(w) && w.config.mode.Ready? && epoch > w.config.epoch && Spare(w, target)
    ensures LeadsTo(w, FailoverEvents(w, epoch, target), w')
    ensures w'.config == Config(w.config.backup, target, epoch, Ready) && SameService(w, w')
    ensures w.config.backup in w'.replicas && w'.replicas[w.config.backup].pending == map[]
  {
    var promoted := BackupPromoted(w, epoch);
    var copied := TargetCopied(promoted, epoch, target);
    w' := PairCompleted(copied, epoch, target);
    var first := [StartPromotion(epoch), SendBegin(true)];
    var second := [Fetch(target), Install(Copy(target, BackupState(w), epoch), true)];
    var third := [Call(target), TakeComplete(Completion(w.config.backup, target, epoch), true)];
    LeadsAppend(w, first, promoted, second, copied);
    LeadsAppend(w, first + second, copied, third, w');
    assert first + second + third == FailoverEvents(w, epoch, target);
  }

  /** After the primary is lost and its backup promoted, a retry replays the original answer. */
  lemma FailoverThenRetry(w: World, epoch: int, target: string, request: MutationRequest, now: real) returns (w': World)
    requires Reached(w) && w.config.mode.Ready? && epoch > w.config.epoch && Spare(w, target)
    requires Trimmed(request.requestId) && Trimmed(request.auction.auctionId)
    requires request.epoch == epoch && request.mutationType != UnspecifiedType && request.requestId in w.acked
    requires FingerprintOf(request, request.mutationType) == w.acked[request.requestId].fingerprint
    ensures Shape(w.replicas, w.config) && LeadsTo(w, FailoverEvents(w, epoch, target), w')
    ensures var retry := Submit(w.config.backup, request, now);
      && Enabled(w', retry)
      && Next(w', retry).replicas == w'.replicas
      && ReplyTo(w', retry) == Some(w.acked[request.requestId].response.(replayed := true))
  {
    ReachedInv(w);
    BackupIsIdle(w);
    w' := FailoverCompletes(w, epoch, target);
    ReachedLeads(w, FailoverEvents(w, epoch, target), w');
    ReachedInv(w');
    RetryReplays(w', request, now);
  }
}
