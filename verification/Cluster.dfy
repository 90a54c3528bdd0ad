/**
 * Any number of replicas exchanging messages that may be lost, with failing saves and restarts.
 * A primary holds its lock for a whole mutation, so it has at most one operation in flight.
 */
module Cluster {
  import opened Text
  import opened AuctionDomain
  import opened Replica

  datatype Stage = Preparing | Prepared | Completing | Aborting

  datatype Op = Op(
    requestId: string, candidate: Auction, record: Record, previousVersion: int, stage: Stage, replay: bool)

  /** The current synchronization: `full` was read from the source; `installed` says the target holds it. */
  datatype Sync = Sync(target: string, full: FullState, installed: bool)

  /** A state some replica has read and not yet installed, for whatever attempt. */
  datatype Copy = Copy(target: string, full: FullState, epoch: int)

  /** A call that asks `primary` to complete with `target` as its backup. */
  datatype Completion = Completion(primary: string, target: string, epoch: int)

  /** A call of a mutation whose caller may have given it up, and the replica it is addressed to. */
  datatype Message = Preparation(prepare: Prepare) | Commitment(decision: Decision) | Cancellation(decision: Decision)

  datatype Mail = Mail(target: string, message: Message)

  datatype Mode =
    | Ready
    | Reprotecting(sync: Option<Sync>)
    | Promoting(promotedEpoch: int, begun: bool, sync: Option<Sync>)

  /** The pair that serves: the last primary to complete and the backup it completed with, and what happens to it. */
  datatype Config = Config(primary: string, backup: string, epoch: int, mode: Mode)

  /**
   * `acked` collects the receipt behind every success reply ever sent; `copies`, `calls` and `mail` are the states
   * read, the completions called and the calls of mutations that may still take effect, at any time from now on.
   */
  datatype World = World(
    replicas: map<string, State>, ops: map<string, Op>, config: Config, acked: map<string, Record>,
    copies: set<Copy>, calls: set<Completion>, mail: set<Mail>)

  /** A call may be lost, or take effect with or without its reply arriving; one that is lost may have been delayed. */
  datatype Delivery = Lost | Delivered(saved: bool, answered: bool)

  datatype Event =
    | Submit(node: string, request: MutationRequest, now: real)
    | SendPrepare(node: string, delivery: Delivery)
    | Decide(node: string, saved: bool)
    | SendCommit(node: string, delivery: Delivery, cleared: bool)
    | SendAbort(node: string, delivery: Delivery)
    | Restart(node: string)
    | Delay(node: string)
    | Late(mail: Mail, saved: bool)
    | StartPromotion(epoch: int)
    | SendBegin(saved: bool)
    | Fetch(target: string)
    | FetchAside(source: string, target: string)
    | Install(copy: Copy, saved: bool)
    | Call(target: string)
    | TakeComplete(call: Completion, saved: bool)
    | EndCall(call: Completion)
    | StartReprotection
    | DropSync

  function SourceOf(config: Config): string
  {
    if config.mode.Promoting? then config.backup else config.primary
  }

  function EpochOf(config: Config): int
  {
    if config.mode.Promoting? then config.mode.promotedEpoch else config.epoch
  }

  function SyncOf(mode: Mode): Option<Sync>
  {
    if mode.Ready? then None else mode.sync
  }

  /** The copy of the current synchronization. */
  predicate CurrentCopy(config: Config, copy: Copy)
  {
    && SyncOf(config.mode).Some?
    && copy == Copy(SyncOf(config.mode).value.target, SyncOf(config.mode).value.full, EpochOf(config))
  }

  /** The completion of the current synchronization, whose target holds the state. */
  predicate CurrentCall(config: Config, call: Completion)
  {
    && SyncOf(config.mode).Some? && SyncOf(config.mode).value.installed
    && call == Completion(SourceOf(config), SyncOf(config.mode).value.target, EpochOf(config))
  }

  /** Reprotection has read the primary's state but not yet activated the new backup. */
  predicate InWindow(config: Config)
  {
    config.mode.Reprotecting? && config.mode.sync.Some?
  }

  /** What the programs themselves allow to happen next. */
  predicate Allowed(w: World, ev: Event)
  {
    match ev
    case Submit(node, request, _) => node in w.replicas && node !in w.ops
    case SendPrepare(node, _) => node in w.replicas && node in w.ops && w.ops[node].stage == Preparing
    case Decide(node, _) => node in w.replicas && node in w.ops && w.ops[node].stage == Prepared
    case SendCommit(node, _, _) => node in w.replicas && node in w.ops && w.ops[node].stage == Completing
    case SendAbort(node, _) => node in w.replicas && node in w.ops && w.ops[node].stage == Aborting
    case Restart(node) => node in w.replicas
    case Delay(node) => node in w.replicas && node in w.ops
    case Late(mail, _) => mail in w.mail && mail.target in w.replicas
    case StartPromotion(epoch) => !w.config.mode.Promoting? && epoch > w.config.epoch
    case SendBegin(_) => w.config.mode.Promoting? && w.config.backup in w.replicas
    case Fetch(target) =>
      var source := SourceOf(w.config);
      && !w.config.mode.Ready?
      && source in w.replicas && target in w.replicas && target != source && source !in w.ops
      && OnSyncFullState(w.replicas[source], EpochOf(w.config)).Some?
      && (w.config.mode.Promoting? ==> Confirmed(w.replicas[source], EpochOf(w.config)))
    case FetchAside(source, target) =>
      && source in w.replicas && target in w.replicas && target != source && source !in w.ops
      && w.replicas[source].role == Primary
    case Install(copy, _) => copy in w.copies && copy.target in w.replicas
    case Call(target) => target in w.replicas && target != SourceOf(w.config)
    case TakeComplete(call, _) => call in w.calls && call.primary in w.replicas && call.primary !in w.ops
    case EndCall(call) => call in w.calls
    case StartReprotection => w.config.mode.Ready?
    case DropSync => true
  }

  /** The completion of a superseded attempt changes the replica it reaches. */
  predicate SupersededCompletion(w: World, call: Completion, saved: bool)
    requires call.primary in w.replicas
  {
    && !CurrentCall(w.config, call)
    && OnComplete(w.replicas[call.primary], call.epoch, call.target, saved).0 != w.replicas[call.primary]
  }

  /** The state read by a superseded attempt is installed over the designated backup. */
  predicate SupersededInstallation(w: World, copy: Copy, saved: bool)
    requires copy.target in w.replicas
  {
    && copy.target == w.config.backup && !CurrentCopy(w.config, copy)
    && OnInstall(w.replicas[copy.target], copy.full, copy.epoch, saved).1
  }

  /** The effect of a call of a mutation on the replica it reaches, once nobody waits for its reply. */
  function Handled(x: State, message: Message, saved: bool): State
  {
    match message
    case Preparation(m) => OnPrepare(x, m, saved).0
    case Commitment(m) => OnCommit(x, m, saved).0
    case Cancellation(m) => OnAbort(x, m, saved).0
  }

  /** The request is decided at the primary, or about to be. */
  predicate Settling(w: World, id: string)
    requires w.config.primary in w.replicas
  {
    var p := w.config.primary;
    || id in w.replicas[p].records
    || (p in w.ops && w.ops[p].stage == Prepared && w.ops[p].requestId == id)
  }

  /** A delayed abort discards at the designated backup what a later attempt at the request rests on. */
  predicate SupersededAbort(w: World, mail: Mail, saved: bool)
    requires mail.target in w.replicas
  {
    && mail.message.Cancellation? && mail.target == w.config.backup && w.config.primary in w.replicas
    && Handled(w.replicas[mail.target], mail.message, saved) != w.replicas[mail.target]
    && Settling(w, mail.message.decision.requestId)
  }

  /**
   * The environment's part: identifiers arrive trimmed, the old backup stays silent in the window, and what a
   * superseded attempt left outstanding neither reconfigures a primary nor overwrites the designated backup nor
   * aborts there what a later attempt rests on.
   */
  predicate Benign(w: World, ev: Event)
    requires Allowed(w, ev)
  {
    match ev
    case Submit(_, request, _) => Trimmed(request.requestId) && Trimmed(request.auction.auctionId)
    case SendPrepare(node, delivery) => InWindow(w.config) && node == w.config.primary ==> delivery == Lost
    case Late(mail, saved) => !SupersededAbort(w, mail, saved)
    case Install(copy, saved) => !SupersededInstallation(w, copy, saved)
    case TakeComplete(call, saved) => !SupersededCompletion(w, call, saved)
    case _ => true
  }

  predicate Enabled(w: World, ev: Event)
  {
    Allowed(w, ev) && Benign(w, ev)
  }

  function WithOp(w: World, node: string, op: Op): World
  {
    w.(ops := w.ops[node := op])
  }

  function WithoutOp(w: World, node: string): World
  {
    w.(ops := w.ops - {node})
  }

  function WithReplica(w: World, node: string, r: State): World
  {
    w.(replicas := w.replicas[node := r])
  }

  function WithSync(config: Config, sync: Sync): Config
  {
    if config.mode.Ready? then config else config.(mode := config.mode.(sync := Some(sync)))
  }

  /**
   * The current attempt is given up or over: a promotion waits for its next backup, a reprotection for its next start.
   */
  function Unsynchronized(config: Config): Config
  {
    config.(mode := if config.mode.Promoting? then config.mode.(sync := None) else Ready)
  }

  function DoSubmit(w: World, node: string, request: MutationRequest, now: real): World
    requires node in w.replicas
  {
    var r := w.replicas[node];
    match StartMutation(r, request, now)
    case Reply(response) =>
      if response.success && request.requestId in r.records then
        w.(acked := w.acked[request.requestId := r.records[request.requestId]])
      else w
    case Resume(id) =>
      if id in r.pending && id in r.records then
        WithOp(w, node, Op(id, r.pending[id].auction, r.records[id], r.pending[id].auction.version, Completing, true))
      else w
    case Propose(id, candidate, record, previous) =>
      WithOp(w, node, Op(id, candidate, record, previous, Preparing, false))
  }

  /** The primary's prepare call: the backup's state after it and whether the primary saw an acknowledgement. */
  function PrepareCall(q: State, x: State, op: Op, delivery: Delivery): (State, bool)
  {
    if delivery.Lost? then (x, false)
    else
      var (x', reply) := OnPrepare(x, PrepareMessage(q, op.requestId, op.candidate, op.record), delivery.saved);
      (x', delivery.answered && reply.success && reply.preparedVersion == op.candidate.version)
  }

  function DoPrepare(w: World, node: string, delivery: Delivery): World
    requires node in w.replicas && node in w.ops
  {
    var q, op := w.replicas[node], w.ops[node];
    if q.role != Primary || q.backup == "" || q.backup !in w.replicas then
      WithOp(w, node, op.(stage := Aborting))
    else
      var (x, acknowledged) := PrepareCall(q, w.replicas[q.backup], op, delivery);
      WithOp(WithReplica(w, q.backup, x), node, op.(stage := if acknowledged then Prepared else Aborting))
  }

  function DoDecide(w: World, node: string, saved: bool): World
    requires node in w.replicas && node in w.ops
  {
    var op := w.ops[node];
    var (q, done) := RecordDecision(w.replicas[node], op.requestId, op.candidate, op.record, saved);
    WithOp(WithReplica(w, node, q), node, op.(stage := if done then Completing else Aborting))
  }

  function CommitCall(x: State, message: Decision, delivery: Delivery): (State, Option<DecisionReply>)
  {
    if delivery.Lost? then (x, None)
    else
      var (x', reply) := OnCommit(x, message, delivery.saved);
      (x', if delivery.answered then Some(reply) else None)
  }

  /** Commit at the named backup, then clear the decision if it acknowledged. */
  function CommitExchange(q: State, x: State, id: string, delivery: Delivery, cleared: bool): (State, State, bool)
    requires id in q.pending
  {
    var (x', reply) := CommitCall(x, CommitMessage(q.pending[id]), delivery);
    var (q', done) := ClearPending(q, id, reply, cleared);
    (q', x', done)
  }

  predicate CommitReachable(w: World, node: string)
    requires node in w.replicas && node in w.ops
  {
    var pending := w.replicas[node].pending;
    w.ops[node].requestId in pending && pending[w.ops[node].requestId].backupAddress in w.replicas
  }

  function DoCommit(w: World, node: string, delivery: Delivery, cleared: bool): World
    requires node in w.replicas && node in w.ops
  {
    if !CommitReachable(w, node) then WithoutOp(w, node)
    else
      var q, id := w.replicas[node], w.ops[node].requestId;
      var target := q.pending[id].backupAddress;
      var (q', x, done) := CommitExchange(q, w.replicas[target], id, delivery, cleared);
      var after := WithoutOp(WithReplica(WithReplica(w, target, x), node, q'), node);
      if done then after.(acked := w.acked[id := q.pending[id].record]) else after
  }

  function DoAbort(w: World, node: string, delivery: Delivery): World
    requires node in w.replicas && node in w.ops
  {
    var q, op := w.replicas[node], w.ops[node];
    if q.role != Primary || q.backup == "" || q.backup !in w.replicas || delivery.Lost? then WithoutOp(w, node)
    else
      var message := AbortMessage(q, op.requestId, op.candidate.auctionId);
      WithoutOp(WithReplica(w, q.backup, OnAbort(w.replicas[q.backup], message, delivery.saved).0), node)
  }

  /** The call the operation of this replica makes next. */
  function Outgoing(q: State, op: Op): set<Mail>
  {
    match op.stage
    case Preparing =>
      if q.role != Primary || q.backup == "" then {}
      else {Mail(q.backup, Preparation(PrepareMessage(q, op.requestId, op.candidate, op.record)))}
    case Prepared => {}
    case Completing =>
      if op.requestId !in q.pending then {}
      else {Mail(q.pending[op.requestId].backupAddress, Commitment(CommitMessage(q.pending[op.requestId])))}
    case Aborting =>
      if q.role != Primary || q.backup == "" then {}
      else {Mail(q.backup, Cancellation(AbortMessage(q, op.requestId, op.candidate.auctionId)))}
  }

  function DoBegin(w: World, saved: bool): World
    requires w.config.mode.Promoting? && w.config.backup in w.replicas
  {
    var mode := w.config.mode;
    var (x, accepted) := OnBegin(w.replicas[w.config.backup], mode.promotedEpoch, saved);
    WithReplica(w, w.config.backup, x).(config := w.config.(mode := mode.(begun := mode.begun || accepted)))
  }

  function DoFetch(w: World, target: string): World
    requires SourceOf(w.config) in w.replicas
  {
    match OnSyncFullState(w.replicas[SourceOf(w.config)], EpochOf(w.config))
    case None => w
    case Some(full) =>
      w.(config := WithSync(w.config, Sync(target, full, false)),
         copies := w.copies + {Copy(target, full, EpochOf(w.config))})
  }

  /** Any replica may read any primary's state, for an attempt that is over or was never the controller's. */
  function DoFetchAside(w: World, source: string, target: string): World
    requires source in w.replicas
  {
    var s := w.replicas[source];
    w.(copies := w.copies + {Copy(target, FullState(s.auctions, s.records), s.epoch)})
  }

  function DoInstall(w: World, copy: Copy, saved: bool): World
    requires copy.target in w.replicas
  {
    var (t, done) := OnInstall(w.replicas[copy.target], copy.full, copy.epoch, saved);
    var sync := SyncOf(w.config.mode);
    if !done then w
    else if sync.None? || sync.value.target != copy.target then WithReplica(w, copy.target, t)
    else
      WithReplica(w, copy.target, t).(
        config := WithSync(w.config, sync.value.(installed := CurrentCopy(w.config, copy))))
  }

  /** The call reaches the primary: with the current target the pair that serves changes in the same step. */
  function DoComplete(w: World, call: Completion, saved: bool): World
    requires call.primary in w.replicas
  {
    var (s, done) := OnComplete(w.replicas[call.primary], call.epoch, call.target, saved);
    if !done then w
    else if !CurrentCall(w.config, call) then WithReplica(w, call.primary, s)
    else WithReplica(w, call.primary, s).(config := Config(call.primary, call.target, call.epoch, Ready))
  }

  function Next(w: World, ev: Event): World
    requires Allowed(w, ev)
  {
    match ev
    case Submit(node, request, now) => DoSubmit(w, node, request, now)
    case SendPrepare(node, delivery) => DoPrepare(w, node, delivery)
    case Decide(node, saved) => DoDecide(w, node, saved)
    case SendCommit(node, delivery, cleared) => DoCommit(w, node, delivery, cleared)
    case SendAbort(node, delivery) => DoAbort(w, node, delivery)
    case Restart(node) => WithoutOp(WithReplica(w, node, Reload(w.replicas[node])), node)
    case Delay(node) => w.(mail := w.mail + Outgoing(w.replicas[node], w.ops[node]))
    case Late(mail, saved) => WithReplica(w, mail.target, Handled(w.replicas[mail.target], mail.message, saved))
    case StartPromotion(epoch) => w.(config := w.config.(mode := Promoting(epoch, false, None)))
    case SendBegin(saved) => DoBegin(w, saved)
    case Fetch(target) => DoFetch(w, target)
    case FetchAside(source, target) => DoFetchAside(w, source, target)
    case Install(copy, saved) => DoInstall(w, copy, saved)
    case Call(target) => w.(calls := w.calls + {Completion(SourceOf(w.config), target, EpochOf(w.config))})
    case TakeComplete(call, saved) => DoComplete(w, call, saved)
    case EndCall(call) => w.(calls := w.calls - {call})
    case StartReprotection => w.(config := w.config.(mode := Reprotecting(None)))
    case DropSync => w.(config := Unsynchronized(w.config))
  }

  /** The reply a client receives when an event ends a mutation. */
  function ReplyTo(w: World, ev: Event): Option<Response>
    requires Allowed(w, ev)
  {
    match ev
    case Submit(node, request, now) =>
      (match StartMutation(w.replicas[node], request, now)
       case Reply(response) => Some(response)
       case _ => None)
    case SendCommit(node, delivery, cleared) =>
      var q, op := w.replicas[node], w.ops[node];
      if CommitReachable(w, node)
         && CommitExchange(q, w.replicas[q.pending[op.requestId].backupAddress], op.requestId, delivery, cleared).2 then
        Some(op.record.response.(replayed := op.replay))
      else
        Some(Failure(AcknowledgementPending, op.candidate.version, op.candidate.auctionId))
    case SendAbort(node, _) =>
      Some(Failure(ReplicationFailed, w.ops[node].previousVersion, w.ops[node].candidate.auctionId))
    case _ => None
  }

  /** A freshly activated pair: empty stores everywhere and every other replica an idle backup. */
  predicate Initial(w: World)
  {
    var p, x := w.config.primary, w.config.backup;
    && w.config.mode == Ready && w.config.epoch >= 1
    && w.ops == map[] && w.acked == map[] && w.copies == {} && w.calls == {} && w.mail == {}
    && p in w.replicas && x in w.replicas && p != x
    && (forall k :: k in w.replicas ==>
          && w.replicas[k].address == k && k != "" && Trimmed(k)
          && w.replicas[k].auctions == map[] && w.replicas[k].records == map[]
          && w.replicas[k].prepared == map[] && w.replicas[k].aborted == map[] && w.replicas[k].pending == map[]
          && w.replicas[k].epoch <= w.config.epoch
          && (k != p ==> w.replicas[k].role == Backup && !w.replicas[k].ready))
    && w.replicas[p].role == Primary && w.replicas[p].ready && w.replicas[p].backup == x
    && w.replicas[p].epoch == w.config.epoch && w.replicas[x].epoch == w.config.epoch
  }

  /** Every event of the sequence is enabled where it happens. */
  ghost predicate Run(w: World, events: seq<Event>)
    decreases |events|
  {
    events == [] || (Enabled(w, events[0]) && Run(Next(w, events[0]), events[1..]))
  }

  ghost function After(w: World, events: seq<Event>): World
    requires Run(w, events)
    decreases |events|
  {
    if events == [] then w else After(Next(w, events[0]), events[1..])
  }

  /** Every step is one the programs allow; nothing is asked of the environment. */
  ghost predicate WildRun(w: World, events: seq<Event>)
    decreases |events|
  {
    events == [] || (Allowed(w, events[0]) && WildRun(Next(w, events[0]), events[1..]))
  }

  ghost function WildAfter(w: World, events: seq<Event>): World
    requires WildRun(w, events)
    decreases |events|
  {
    if events == [] then w else WildAfter(Next(w, events[0]), events[1..])
  }

  ghost predicate Wild(start: World, events: seq<Event>, w: World)
  {
    WildRun(start, events) && WildAfter(start, events) == w
  }

  lemma WildOne(w: World, ev: Event)
    requires Allowed(w, ev)
    ensures Wild(w, [ev], Next(w, ev))
  {
    assert [ev][1..] == [];
    assert Wild(Next(w, ev), [], Next(w, ev));
  }

  lemma {:induction false} WildAppend(start: World, events: seq<Event>, middle: World, more: seq<Event>, w: World)
    requires Wild(start, events, middle) && Wild(middle, more, w)
    ensures Wild(start, events + more, w)
    decreases |events|
  {
    if events == [] {
      assert [] + more == more;
    } else {
      assert (events + more)[1..] == events[1..] + more;
      WildAppend(Next(start, events[0]), events[1..], middle, more, w);
    }
  }

  /** One more step, seen as a change from one world to the next. */
  predicate Step(w: World, ev: Event, w': World)
  {
    Allowed(w, ev) && Next(w, ev) == w'
  }

  lemma WildStep(start: World, events: seq<Event>, w: World, ev: Event, w': World)
    requires Wild(start, events, w) && Step(w, ev, w')
    ensures Wild(start, events + [ev], w')
  {
    WildOne(w, ev);
    WildAppend(start, events, w, [ev], w');
  }
}
