/** A whole mutation as its handler runs it, and as the cluster sees it: one submission and what follows. */
module MutationRun {
  import opened Text
  import opened AuctionDomain
  import opened Replica
  import opened Cluster

  /** What the network and the disks will do to the calls of one mutation. */
  datatype Script = Script(prepare: Delivery, decided: bool, commit: Delivery, cleared: bool, abort: Delivery)

  type Replicas = map<string, State>

  function PrepareAnswer(replicas: Replicas, q: State, op: Op, d: Delivery): Option<PrepareReply>
  {
    if q.backup !in replicas || d.Lost? || !d.answered then None
    else Some(OnPrepare(replicas[q.backup], PrepareMessage(q, op.requestId, op.candidate, op.record), d.saved).1)
  }

  function CommitAnswer(replicas: Replicas, decision: CommitDecision, d: Delivery): Option<DecisionReply>
  {
    if decision.backupAddress !in replicas || d.Lost? || !d.answered then None
    else Some(OnCommit(replicas[decision.backupAddress], CommitMessage(decision), d.saved).1)
  }

  /** The last event of a mutation that was decided or given up. */
  function FinalEvent(w: World, node: string, s: Script): Event
    requires node in w.ops
  {
    if w.ops[node].stage == Aborting then SendAbort(node, s.abort) else SendCommit(node, s.commit, s.cleared)
  }

  /** The events of one mutation at `node`, one after the other: the world before the last of them, and that one. */
  function Drive(w: World, node: string, request: MutationRequest, now: real, s: Script): (World, Event)
    requires node in w.replicas && node !in w.ops
  {
    var submitted := DoSubmit(w, node, request, now);
    if node !in submitted.ops then (w, Submit(node, request, now))
    else if submitted.ops[node].stage == Completing then (submitted, SendCommit(node, s.commit, s.cleared))
    else
      var prepared := DoPrepare(submitted, node, s.prepare);
      if prepared.ops[node].stage == Aborting then (prepared, SendAbort(node, s.abort))
      else
        var decided := DoDecide(prepared, node, s.decided);
        (decided, FinalEvent(decided, node, s))
  }

  predicate OtherTargets(q: State, node: string)
  {
    q.backup != node && forall k :: k in q.pending ==> q.pending[k].backupAddress != node
  }

  /** The network of the handler that corresponds to a script. */
  function NetworkOf(w: World, node: string, request: MutationRequest, now: real, s: Script): Network
    requires node in w.replicas && node !in w.ops
  {
    var q := w.replicas[node];
    match StartMutation(q, request, now)
    case Reply(_) => Network(None, s.decided, None, s.cleared)
    case Resume(id) =>
      Network(
        None, s.decided, if id in q.pending then CommitAnswer(w.replicas, q.pending[id], s.commit) else None, s.cleared)
    case Propose(id, candidate, record, previous) =>
      var op := Op(id, candidate, record, previous, Preparing, false);
      var prepared := DoPrepare(WithOp(w, node, op), node, s.prepare);
      Network(
        PrepareAnswer(w.replicas, q, op, s.prepare), s.decided,
        CommitAnswer(prepared.replicas, CommitDecision(id, candidate, record, q.address, q.backup, q.epoch), s.commit),
        s.cleared)
  }

  predicate Acknowledged(q: State, answer: Option<PrepareReply>, version: int)
  {
    q.role == Primary && q.backup != "" && answer.Some? && answer.value.success
        && answer.value.preparedVersion == version
  }

  /** The handler's fields after a prepare and whether it goes on to decide. */
  lemma PrepareStage(w: World, node: string, d: Delivery)
    requires node in w.replicas && node in w.ops && w.replicas[node].backup != node
    ensures var w' := DoPrepare(w, node, d);
      var q, op := w.replicas[node], w.ops[node];
      && node in w'.replicas && node in w'.ops && w'.replicas[node] == q
      && w'.ops[node] ==
           op.(stage := if Acknowledged(q, PrepareAnswer(w.replicas, q, op, d), op.candidate.version)
                        then Prepared else Aborting)
  {
  }

  /** The event ends the mutation, leaves the replica in this state and answers the client with this response. */
  predicate Ends(w: World, ev: Event, node: string, r: State, response: Response)
  {
    && Allowed(w, ev)
    && node in Next(w, ev).replicas && node !in Next(w, ev).ops
    && Next(w, ev).replicas[node] == r
    && ReplyTo(w, ev) == Some(response)
  }

  lemma CommitStage(w: World, node: string, d: Delivery, cleared: bool)
    requires node in w.replicas && node in w.ops && w.ops[node].requestId in w.replicas[node].pending
    requires w.ops[node].stage == Completing
    requires w.replicas[node].pending[w.ops[node].requestId].backupAddress != node
    ensures var q, op := w.replicas[node], w.ops[node];
      var (q', done) := ClearPending(q, op.requestId, CommitAnswer(w.replicas, q.pending[op.requestId], d), cleared);
      Ends(w, SendCommit(node, d, cleared), node, q',
           if done then op.record.response.(replayed := op.replay)
           else Failure(AcknowledgementPending, op.candidate.version, op.candidate.auctionId))
  {
  }

  lemma AbortStage(w: World, node: string, d: Delivery)
    requires node in w.replicas && node in w.ops && w.ops[node].stage == Aborting && w.replicas[node].backup != node
    ensures var op := w.ops[node];
      Ends(w, SendAbort(node, d), node, w.replicas[node],
           Failure(ReplicationFailed, op.previousVersion, op.candidate.auctionId))
  {
  }

  /** A candidate as a mutation proposes it: its receipt repeats the success that may be answered. */
  predicate Proposal(op: Op)
  {
    !op.replay && op.record.response == Response(true, op.candidate.version, NoFailure, op.candidate.auctionId, false)
  }

  lemma DecideStage(w: World, node: string, s: Script)
    requires node in w.replicas && node in w.ops && w.replicas[node].backup != node && Proposal(w.ops[node])
    ensures var q, op := w.replicas[node], w.ops[node];
      var (decided, done) := RecordDecision(q, op.requestId, op.candidate, op.record, s.decided);
      var decision := CommitDecision(op.requestId, op.candidate, op.record, q.address, q.backup, q.epoch);
      var (cleared, acknowledged) := ClearPending(decided, op.requestId, CommitAnswer(w.replicas, decision, s.commit),
          s.cleared);
      var after := DoDecide(w, node, s.decided);
      && node in after.ops
      && Ends(after, FinalEvent(after, node, s), node, if done then cleared else q,
              if !done then Failure(ReplicationFailed, op.previousVersion, op.candidate.auctionId)
              else if acknowledged then op.record.response
              else Failure(AcknowledgementPending, op.candidate.version, op.candidate.auctionId))
  {
    var q, op := w.replicas[node], w.ops[node];
    var (decided, done) := RecordDecision(q, op.requestId, op.candidate, op.record, s.decided);
    var after := DoDecide(w, node, s.decided);
    if done {
      CommitStage(after, node, s.commit, s.cleared);
      assert CommitAnswer(after.replicas, decided.pending[op.requestId], s.commit)
          == CommitAnswer(w.replicas, decided.pending[op.requestId], s.commit);
    } else {
      AbortStage(after, node, s.abort);
    }
  }

  lemma ProposalDrives(w: World, node: string, op: Op, s: Script)
    requires node in w.replicas && node !in w.ops && w.replicas[node].backup != node
    requires op.stage == Preparing && Proposal(op)
    ensures var q := w.replicas[node];
      var prepared := DoPrepare(WithOp(w, node, op), node, s.prepare);
      var decision := CommitDecision(op.requestId, op.candidate, op.record, q.address, q.backup, q.epoch);
      var net := Network(PrepareAnswer(w.replicas, q, op, s.prepare), s.decided,
                         CommitAnswer(prepared.replicas, decision, s.commit), s.cleared);
      var (r, response) := Coordinate(q, op.requestId, op.candidate, op.record, op.previousVersion, net);
      && node in prepared.replicas && node in prepared.ops
      && (if prepared.ops[node].stage == Aborting then Ends(prepared, SendAbort(node, s.abort), node, r, response)
          else
            var decided := DoDecide(prepared, node, s.decided);
            Ends(decided, FinalEvent(decided, node, s), node, r, response))
  {
    var started := WithOp(w, node, op);
    PrepareStage(started, node, s.prepare);
    var prepared := DoPrepare(started, node, s.prepare);
    if prepared.ops[node].stage == Aborting {
      AbortStage(prepared, node, s.abort);
    } else {
      DecideStage(prepared, node, s);
    }
  }

  lemma ResumeDrives(w: World, node: string, request: MutationRequest, now: real, s: Script)
    requires node in w.replicas && node !in w.ops && OtherTargets(w.replicas[node], node)
    requires StartMutation(w.replicas[node], request, now).Resume?
    ensures var (last, ev) := Drive(w, node, request, now, s);
      var (r, response) := Apply(w.replicas[node], request, now, NetworkOf(w, node, request, now, s));
      Ends(last, ev, node, r, response)
  {
    CommitStage(DoSubmit(w, node, request, now), node, s.commit, s.cleared);
  }

  /**
   * The handler and the cluster agree: the events of a mutation, one after the other, leave its primary exactly as
   * the handler leaves its object, with no operation in flight, and the last one answers what the handler returns.
   */
  lemma DriveIsApply(w: World, node: string, request: MutationRequest, now: real, s: Script)
    requires node in w.replicas && node !in w.ops && OtherTargets(w.replicas[node], node)
    ensures var (last, ev) := Drive(w, node, request, now, s);
      var (r, response) := Apply(w.replicas[node], request, now, NetworkOf(w, node, request, now, s));
      Ends(last, ev, node, r, response)
  {
    var q := w.replicas[node];
    match StartMutation(q, request, now)
    case Reply(_) =>
    case Resume(_) => ResumeDrives(w, node, request, now, s);
    case Propose(id, candidate, record, previous) =>
      ProposalDrives(w, node, Op(id, candidate, record, previous, Preparing, false), s);
  }

  // ---------------------------------------------------------------- the same as a run of events

  ghost predicate WildlyReaches(start: World, w: World)
  {
    exists events :: Wild(start, events, w)
  }

  lemma WildNext(start: World, w: World, ev: Event)
    requires WildlyReaches(start, w) && Allowed(w, ev)
    ensures WildlyReaches(start, Next(w, ev))
  {
    var events :| Wild(start, events, w);
    WildStep(start, events, w, ev, Next(w, ev));
  }

  lemma SubmittedStage(w: World, node: string, request: MutationRequest, now: real)
    requires node in w.replicas && node !in w.ops
    ensures var w' := DoSubmit(w, node, request, now);
      node in w'.ops ==> node in w'.replicas && (w'.ops[node].stage == Completing || w'.ops[node].stage == Preparing)
  {
  }

  lemma PreparedStage(w: World, node: string, d: Delivery)
    requires node in w.replicas && node in w.ops
    ensures var w' := DoPrepare(w, node, d);
      && node in w'.replicas && node in w'.ops && (w'.ops[node].stage == Prepared || w'.ops[node].stage == Aborting)
  {
  }

  lemma DecidedStage(w: World, node: string, saved: bool)
    requires node in w.replicas && node in w.ops
    ensures var w' := DoDecide(w, node, saved);
      && node in w'.replicas && node in w'.ops && (w'.ops[node].stage == Completing || w'.ops[node].stage == Aborting)
  {
  }

  /** Every script is a run of events the programs allow. */
  lemma DriveIsRun(w: World, node: string, request: MutationRequest, now: real, s: Script)
    requires node in w.replicas && node !in w.ops
    ensures var (last, ev) := Drive(w, node, request, now, s);
      WildlyReaches(w, last) && Allowed(last, ev)
  {
    assert Wild(w, [], w);
    var submitted := DoSubmit(w, node, request, now);
    SubmittedStage(w, node, request, now);
    if node in submitted.ops {
      WildNext(w, w, Submit(node, request, now));
      if submitted.ops[node].stage == Preparing {
        WildNext(w, submitted, SendPrepare(node, s.prepare));
        PreparedStage(submitted, node, s.prepare);
        var prepared := DoPrepare(submitted, node, s.prepare);
        if prepared.ops[node].stage == Prepared {
          WildNext(w, prepared, Decide(node, s.decided));
          DecidedStage(prepared, node, s.decided);
        }
      }
    }
  }
}
