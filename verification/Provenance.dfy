/** Where a receipt comes from: every copy of it stems from a submission of its request. */
module Provenance {
  import opened Text
  import opened AuctionDomain
  import opened Replica
  import opened LocalInvariant
  import opened Cluster
  import opened PairInvariant
  import opened ClusterInvariant
  import opened MutationSteps
  import opened ConfigSteps
  import opened Durability

  predicate RecordTagged(records: map<string, Record>, id: string, f: Fingerprint)
  {
    id in records ==> records[id].fingerprint == f
  }

  /** Whatever the replica holds for the request id has this fingerprint. */
  predicate Tagged(r: State, id: string, f: Fingerprint)
  {
    && RecordTagged(r.records, id, f)
    && (id in r.prepared ==> r.prepared[id].record.fingerprint == f)
    && (id in r.pending ==> r.pending[id].record.fingerprint == f)
  }

  predicate OpTagged(op: Op, id: string, f: Fingerprint)
  {
    op.requestId == id ==> op.record.fingerprint == f
  }

  predicate AllTagged(replicas: Replicas, id: string, f: Fingerprint)
  {
    forall k {:trigger Tagged(replicas[k], id, f)} :: k in replicas ==> Tagged(replicas[k], id, f)
  }

  predicate OpsTagged(ops: map<string, Op>, id: string, f: Fingerprint)
  {
    forall k {:trigger OpTagged(ops[k], id, f)} :: k in ops ==> OpTagged(ops[k], id, f)
  }

  predicate SyncTagged(mode: Mode, id: string, f: Fingerprint)
  {
    SyncOf(mode).Some? ==> RecordTagged(SyncOf(mode).value.full.records, id, f)
  }

  predicate CopiesTagged(copies: set<Copy>, id: string, f: Fingerprint)
  {
    forall copy :: copy in copies ==> RecordTagged(copy.full.records, id, f)
  }

  predicate MailTagged(message: Message, id: string, f: Fingerprint)
  {
    message.Preparation? && message.prepare.requestId == id ==> message.prepare.record.fingerprint == f
  }

  predicate MailsTagged(mail: set<Mail>, id: string, f: Fingerprint)
  {
    forall m {:trigger MailTagged(m.message, id, f)} {:trigger m in mail} :: m in mail ==> MailTagged(m.message, id, f)
  }

  predicate WorldTagged(w: World, id: string, f: Fingerprint)
  {
    && AllTagged(w.replicas, id, f) && OpsTagged(w.ops, id, f) && SyncTagged(w.config.mode, id, f)
    && RecordTagged(w.acked, id, f) && CopiesTagged(w.copies, id, f)
    && MailsTagged(w.mail, id, f)
  }

  /** The submission is not under this id, or it is a typed request with this fingerprint. */
  predicate Attempts(ev: Event, id: string, f: Fingerprint)
  {
    ev.Submit? && ev.request.requestId == id ==>
      ev.request.mutationType != UnspecifiedType && FingerprintOf(ev.request, ev.request.mutationType) == f
  }

  lemma PrepareTagged(q: State, x: State, op: Op, delivery: Delivery, id: string, f: Fingerprint)
    requires Tagged(x, id, f) && OpTagged(op, id, f) && Trimmed(op.requestId)
    ensures Tagged(PrepareCall(q, x, op, delivery).0, id, f)
  {
  }

  lemma DecideTagged(q: State, op: Op, saved: bool, id: string, f: Fingerprint)
    requires Tagged(q, id, f) && OpTagged(op, id, f)
    ensures Tagged(RecordDecision(q, op.requestId, op.candidate, op.record, saved).0, id, f)
  {
  }

  lemma CommitTagged(q: State, x: State, key: string, delivery: Delivery, cleared: bool, id: string, f: Fingerprint)
    requires key in q.pending && Tagged(q, id, f) && Tagged(x, id, f)
    ensures var (q', x', done) := CommitExchange(q, x, key, delivery, cleared); Tagged(q', id, f) && Tagged(x', id, f)
  {
  }

  lemma AbortTagged(x: State, m: Decision, saved: bool, id: string, f: Fingerprint)
    requires Tagged(x, id, f)
    ensures Tagged(OnAbort(x, m, saved).0, id, f)
  {
  }

  lemma SubmitTagged(w: World, ev: Event, id: string, f: Fingerprint)
    requires Enabled(w, ev) && ev.Submit? && WorldTagged(w, id, f) && Attempts(ev, id, f)
    ensures WorldTagged(Next(w, ev), id, f)
  {
    assert Tagged(w.replicas[ev.node], id, f);
  }

  lemma SendPrepareTagged(w: World, ev: Event, id: string, f: Fingerprint)
    requires Inv(w) && Enabled(w, ev) && ev.SendPrepare? && WorldTagged(w, id, f)
    ensures WorldTagged(Next(w, ev), id, f)
  {
    var q, op := w.replicas[ev.node], w.ops[ev.node];
    assert OpOk(q, op) && OpTagged(op, id, f);
    if q.backup in w.replicas {
      assert Tagged(w.replicas[q.backup], id, f);
      PrepareTagged(q, w.replicas[q.backup], op, ev.delivery, id, f);
    }
  }

  lemma DecisionTagged(w: World, ev: Event, id: string, f: Fingerprint)
    requires Enabled(w, ev) && ev.Decide? && WorldTagged(w, id, f)
    ensures WorldTagged(Next(w, ev), id, f)
  {
    assert Tagged(w.replicas[ev.node], id, f) && OpTagged(w.ops[ev.node], id, f);
    DecideTagged(w.replicas[ev.node], w.ops[ev.node], ev.saved, id, f);
  }

  lemma SendCommitTagged(w: World, ev: Event, id: string, f: Fingerprint)
    requires Enabled(w, ev) && ev.SendCommit? && WorldTagged(w, id, f)
    ensures WorldTagged(Next(w, ev), id, f)
  {
    var q, key := w.replicas[ev.node], w.ops[ev.node].requestId;
    if CommitReachable(w, ev.node) {
      assert Tagged(q, id, f) && Tagged(w.replicas[q.pending[key].backupAddress], id, f);
      CommitTagged(q, w.replicas[q.pending[key].backupAddress], key, ev.delivery, ev.cleared, id, f);
    }
  }

  lemma SendAbortTagged(w: World, ev: Event, id: string, f: Fingerprint)
    requires Enabled(w, ev) && ev.SendAbort? && WorldTagged(w, id, f)
    ensures WorldTagged(Next(w, ev), id, f)
  {
    var q, op := w.replicas[ev.node], w.ops[ev.node];
    if q.backup in w.replicas && ev.delivery.Delivered? {
      assert Tagged(w.replicas[q.backup], id, f);
      AbortTagged(w.replicas[q.backup], AbortMessage(q, op.requestId, op.candidate.auctionId), ev.delivery.saved, id,
          f);
    }
  }

  lemma RestartTagged(w: World, node: string, id: string, f: Fingerprint)
    requires Enabled(w, Restart(node)) && WorldTagged(w, id, f)
    ensures WorldTagged(Next(w, Restart(node)), id, f)
  {
    assert Tagged(w.replicas[node], id, f);
  }

  lemma BeginTagged(w: World, saved: bool, id: string, f: Fingerprint)
    requires Enabled(w, SendBegin(saved)) && WorldTagged(w, id, f)
    ensures WorldTagged(Next(w, SendBegin(saved)), id, f)
  {
    assert Tagged(w.replicas[w.config.backup], id, f);
  }

  lemma FetchTagged(w: World, ev: Event, id: string, f: Fingerprint)
    requires Enabled(w, ev) && (ev.Fetch? || ev.FetchAside?) && WorldTagged(w, id, f)
    ensures WorldTagged(Next(w, ev), id, f)
  {
    assert Tagged(w.replicas[if ev.Fetch? then SourceOf(w.config) else ev.source], id, f);
  }

  lemma InstallTagged(w: World, copy: Copy, saved: bool, id: string, f: Fingerprint)
    requires Enabled(w, Install(copy, saved)) && WorldTagged(w, id, f)
    ensures WorldTagged(Next(w, Install(copy, saved)), id, f)
  {
    assert Tagged(w.replicas[copy.target], id, f);
  }

  lemma CompleteTagged(w: World, call: Completion, saved: bool, id: string, f: Fingerprint)
    requires Enabled(w, TakeComplete(call, saved)) && WorldTagged(w, id, f)
    ensures WorldTagged(Next(w, TakeComplete(call, saved)), id, f)
  {
    assert Tagged(w.replicas[call.primary], id, f);
  }

  lemma DelayTagged(w: World, node: string, id: string, f: Fingerprint)
    requires Enabled(w, Delay(node)) && WorldTagged(w, id, f)
    ensures WorldTagged(Next(w, Delay(node)), id, f)
  {
    assert OpTagged(w.ops[node], id, f);
  }

  lemma HandledTagged(x: State, message: Message, saved: bool, id: string, f: Fingerprint)
    requires Tagged(x, id, f) && MailTagged(message, id, f)
    requires message.Preparation? ==> Trimmed(message.prepare.requestId)
    ensures Tagged(Handled(x, message, saved), id, f)
  {
  }

  lemma LateTagged(w: World, mail: Mail, saved: bool, id: string, f: Fingerprint)
    requires Inv(w) && Enabled(w, Late(mail, saved)) && WorldTagged(w, id, f)
    ensures WorldTagged(Next(w, Late(mail, saved)), id, f)
  {
    assert Tagged(w.replicas[mail.target], id, f) && MailTagged(mail.message, id, f);
    assert MailOk(mail.message, w.config, w.replicas[w.config.primary].records);
    HandledTagged(w.replicas[mail.target], mail.message, saved, id, f);
  }

  lemma ConfigTagged(w: World, ev: Event, id: string, f: Fingerprint)
    requires Enabled(w, ev) && WorldTagged(w, id, f)
    requires !ev.Submit? && !ev.SendPrepare? && !ev.Decide? && !ev.SendCommit? && !ev.SendAbort? && !ev.Late?
    ensures WorldTagged(Next(w, ev), id, f)
  {
    match ev
    case Restart(node) => RestartTagged(w, node, id, f);
    case Delay(node) => DelayTagged(w, node, id, f);
    case SendBegin(saved) => BeginTagged(w, saved, id, f);
    case Fetch(_) => FetchTagged(w, ev, id, f);
    case FetchAside(_, _) => FetchTagged(w, ev, id, f);
    case Install(copy, saved) => InstallTagged(w, copy, saved, id, f);
    case TakeComplete(call, saved) => CompleteTagged(w, call, saved, id, f);
    case _ =>
  }

  lemma NextTagged(w: World, ev: Event, id: string, f: Fingerprint)
    requires Inv(w) && Enabled(w, ev) && WorldTagged(w, id, f) && Attempts(ev, id, f)
    ensures WorldTagged(Next(w, ev), id, f)
  {
    if ev.Submit? {
      SubmitTagged(w, ev, id, f);
    } else if ev.SendPrepare? {
      SendPrepareTagged(w, ev, id, f);
    } else if ev.Decide? {
      DecisionTagged(w, ev, id, f);
    } else if ev.SendCommit? {
      SendCommitTagged(w, ev, id, f);
    } else if ev.SendAbort? {
      SendAbortTagged(w, ev, id, f);
    } else if ev.Late? {
      LateTagged(w, ev.mail, ev.saved, id, f);
    } else {
      ConfigTagged(w, ev, id, f);
    }
  }

  lemma {:induction false} RunTagged(w: World, events: seq<Event>, id: string, f: Fingerprint)
    requires Inv(w) && Run(w, events) && WorldTagged(w, id, f)
    requires forall i :: 0 <= i < |events| ==> Attempts(events[i], id, f)
    ensures WorldTagged(After(w, events), id, f)
    decreases |events|
  {
    if events != [] {
      NextInv(w, events[0]);
      NextTagged(w, events[0], id, f);
      RunTagged(Next(w, events[0]), events[1..], id, f);
    }
  }

  /** The cluster knows nothing about the id. */
  predicate Unheard(w: World, id: string)
  {
    && (forall k :: k in w.replicas ==>
          id !in w.replicas[k].records && id !in w.replicas[k].prepared && id !in w.replicas[k].pending)
    && (forall k :: k in w.ops ==> w.ops[k].requestId != id)
    && (SyncOf(w.config.mode).Some? ==> id !in SyncOf(w.config.mode).value.full.records)
    && id !in w.acked
    && (forall copy :: copy in w.copies ==> id !in copy.full.records)
    && (forall m :: m in w.mail && m.message.Preparation? ==> m.message.prepare.requestId != id)
  }

  /**
   * However the attempts of one operation mix with lost messages, restarts and failovers, every receipt under
   * its id, on any replica, is a receipt of that operation, and no attempt is refused as a conflict with another.
   */
  lemma OneOperationOneReceipt(w: World, events: seq<Event>, id: string, f: Fingerprint, k: string)
    requires Reached(w) && Unheard(w, id) && Run(w, events)
    requires forall i :: 0 <= i < |events| ==> Attempts(events[i], id, f)
    requires k in After(w, events).replicas
    ensures var r := After(w, events).replicas[k];
      && (id in r.records ==>
            r.records[id].fingerprint == f && r.records[id].response.success
            && forall j :: j in r.records && j != id ==>
                 !Names(r.records[j], r.records[id].response.auctionId, r.records[id].response.currentVersion))
      && forall request: MutationRequest, now: real ::
           Attempts(Submit(k, request, now), id, f) && request.requestId == id && id !in r.aborted ==>
             StartMutation(r, request, now) !=
               Reply(Failure(IdempotencyConflict, VersionOf(r.auctions, request.auction.auctionId), ""))
  {
    ReachedInv(w);
    UnheardTagged(w, id, f);
    RunInv(w, events);
    RunTagged(w, events, id, f);
    var r := After(w, events).replicas[k];
    assert Tagged(r, id, f) && Sound(r);
    if id in r.records {
      assert ReceiptInRange(r.auctions, r.records[id]);
      assert Names(r.records[id], r.records[id].response.auctionId, r.records[id].response.currentVersion);
    }
    forall request: MutationRequest, now: real |
      Attempts(Submit(k, request, now), id, f) && request.requestId == id && id !in r.aborted
      ensures StartMutation(r, request, now) !=
              Reply(Failure(IdempotencyConflict, VersionOf(r.auctions, request.auction.auctionId), ""))
    {
      NoConflict(r, request, now, f);
    }
  }

  lemma NoConflict(r: State, request: MutationRequest, now: real, f: Fingerprint)
    requires RecordTagged(r.records, request.requestId, f) && request.requestId !in r.aborted
    requires request.mutationType != UnspecifiedType && FingerprintOf(request, request.mutationType) == f
    requires forall k :: k in r.records ==> r.records[k].response.success
    ensures StartMutation(r, request, now) !=
            Reply(Failure(IdempotencyConflict, VersionOf(r.auctions, request.auction.auctionId), ""))
  {
  }

  lemma TaggedFrom(w: World, ev: Event, events: seq<Event>, id: string, f: Fingerprint)
    requires Inv(w) && Enabled(w, ev) && Run(Next(w, ev), events) && WorldTagged(w, id, f) && Attempts(ev, id, f)
    requires forall i :: 0 <= i < |events| ==> Attempts(events[i], id, f)
    ensures WorldTagged(After(Next(w, ev), events), id, f)
  {
    NextInv(w, ev);
    NextTagged(w, ev, id, f);
    RunTagged(Next(w, ev), events, id, f);
  }

  lemma UnheardTagged(w: World, id: string, f: Fingerprint)
    requires Unheard(w, id)
    ensures WorldTagged(w, id, f)
  {
  }

  /** A success reply to any attempt means that exactly this receipt is what the cluster keeps from then on. */
  lemma SuccessIsThisOperation(w: World, before: seq<Event>, ev: Event, after: seq<Event>, id: string, f: Fingerprint)
    requires Reached(w) && Unheard(w, id) && Run(w, before)
    requires Enabled(After(w, before), ev) && RequestIdOf(After(w, before), ev) == id
    requires ReplyTo(After(w, before), ev).Some? && ReplyTo(After(w, before), ev).value.success
    requires Run(Next(After(w, before), ev), after)
    requires Attempts(ev, id, f) && (forall i :: 0 <= i < |before| ==> Attempts(before[i], id, f))
    requires forall i :: 0 <= i < |after| ==> Attempts(after[i], id, f)
    ensures var later := After(Next(After(w, before), ev), after);
      && later.config.backup in later.replicas
      && var records := later.replicas[later.config.backup].records;
         && id in records && records[id].fingerprint == f
         && records[id].response.currentVersion == ReplyTo(After(w, before), ev).value.currentVersion
  {
    ReachedInv(w);
    UnheardTagged(w, id, f);
    RunInv(w, before);
    RunTagged(w, before, id, f);
    var middle := After(w, before);
    SurvivesFrom(middle, ev, after);
    TaggedFrom(middle, ev, after, id, f);
    var later := After(Next(middle, ev), after);
    assert Tagged(later.replicas[later.config.backup], id, f);
  }

  lemma SurvivesFrom(w: World, ev: Event, events: seq<Event>)
    requires Inv(w) && Enabled(w, ev) && Run(Next(w, ev), events)
    requires ReplyTo(w, ev).Some? && ReplyTo(w, ev).value.success
    ensures var later, id := After(Next(w, ev), events), RequestIdOf(w, ev);
      && Shape(later.replicas, later.config)
      && id in later.replicas[later.config.backup].records
      && later.replicas[later.config.backup].records[id].response.currentVersion == ReplyTo(w, ev).value.currentVersion
  {
    NextInv(w, ev);
    SuccessIsAcked(w, ev);
    RunInv(Next(w, ev), events);
    RunRemembers(Next(w, ev), events);
    var later := After(Next(w, ev), events);
    assert Held(later.replicas[later.config.backup].records, RequestIdOf(w, ev), later.acked[RequestIdOf(w, ev)]);
  }
}
