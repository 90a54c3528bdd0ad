/** Calls of mutations that were delayed, repeated or given up keep the cluster invariant whenever they take effect. */
module MailSteps {
  import opened Text
  import opened AuctionDomain
  import opened AuctionLog
  import opened Replica
  import opened LocalInvariant
  import opened Cluster
  import opened PairInvariant
  import opened ClusterInvariant
  import opened MutationSteps

  // ---------------------------------------------------------------- delay

  lemma OutgoingOk(w: World, node: string, m: Mail)
    requires Inv(w) && node in w.replicas && node in w.ops && m in Outgoing(w.replicas[node], w.ops[node])
    ensures MailOk(m.message, w.config, w.replicas[w.config.primary].records)
  {
    var q, op := w.replicas[node], w.ops[node];
    assert OpOk(q, op) && Placed(node, q);
    if op.stage == Completing {
      DecisionIsTimely(w, node, op.requestId);
    } else {
      SenderIsTimely(w, node);
    }
  }

  lemma DelayInv(w: World, node: string)
    requires Inv(w) && Enabled(w, Delay(node))
    ensures Inv(Next(w, Delay(node)))
  {
    var decided := w.replicas[w.config.primary].records;
    forall m | m in w.mail + Outgoing(w.replicas[node], w.ops[node]) ensures MailOk(m.message, w.config, decided) {
      if m !in w.mail {
        OutgoingOk(w, node, m);
      }
    }
  }

  // ---------------------------------------------------------------- late prepares

  lemma HandledPlaced(k: string, x: State, message: Message, saved: bool)
    requires Placed(k, x)
    ensures var x' := Handled(x, message, saved);
      && Placed(k, x') && SamePlace(x, x')
      && (x' != x ==> x.role == Backup && !x.ready)
  {
  }

  /** What the pair and a synchronization ask of a change at a backup. */
  ghost predicate Undisturbed(w: World, k: string, x': State)
    requires Shape(w.replicas, w.config) && k in w.replicas
  {
    PairKept(w, k, x') && SyncKept(w, k, x')
  }

  lemma LatePrepare(w: World, k: string, m: Prepare, saved: bool)
    requires Inv(w) && k in w.replicas && MailOk(Preparation(m), w.config, w.replicas[w.config.primary].records)
    ensures Undisturbed(w, k, OnPrepare(w.replicas[k], m, saved).0)
  {
    var p, x := w.replicas[w.config.primary], w.replicas[k];
    var x' := OnPrepare(x, m, saved).0;
    PrepareEffect(x, m, saved);
    if k == w.config.backup && !Begun(w.config) {
      FramePaired(p, x, p, x');
    }
  }

  // ---------------------------------------------------------------- late commits

  /** The commit closes the gap of a request the primary decided, which is not the one it has staged. */
  lemma LateCommitAtBackup(w: World, m: Decision, saved: bool)
    requires Inv(w) && !Begun(w.config)
    requires MailOk(Commitment(m), w.config, w.replicas[w.config.primary].records)
    requires OnCommit(w.replicas[w.config.backup], m, saved).0 != w.replicas[w.config.backup]
    ensures PairKept(w, w.config.backup, OnCommit(w.replicas[w.config.backup], m, saved).0)
  {
    var p, x, id := w.replicas[w.config.primary], w.replicas[w.config.backup], m.requestId;
    var (x', reply) := OnCommit(x, m, saved);
    assert Sound(p) && Sound(x) && Placed(w.config.backup, x);
    CommitPlaced(w.config.backup, x, m, saved);
    CommitEffect(x, m, saved);
    assert Ahead(p, x, id);
    CommitPaired(p, x, x', id, reply.success);
    CommitKeepsStage(w, id, x');
  }

  lemma CommitKeepsStage(w: World, id: string, x': State)
    requires Inv(w) && !Begun(w.config)
    requires var p, x := w.replicas[w.config.primary], w.replicas[w.config.backup];
      && Ahead(p, x, id) && id in x.prepared
      && x' == x.(auctions := x.auctions[x.prepared[id].candidate.auctionId := x.prepared[id].candidate],
                  records := x.records[id := x.prepared[id].record], prepared := x.prepared - {id})
    ensures StageOk(w.replicas[w.config.primary], x', GetOp(w.ops, w.config.primary), w.config)
  {
    var op := GetOp(w.ops, w.config.primary);
    assert op.Some? ==> OpOk(w.replicas[w.config.primary], op.value);
  }

  lemma LateCommit(w: World, k: string, m: Decision, saved: bool)
    requires Inv(w) && k in w.replicas && MailOk(Commitment(m), w.config, w.replicas[w.config.primary].records)
    ensures Undisturbed(w, k, OnCommit(w.replicas[k], m, saved).0)
  {
    var x := w.replicas[k];
    var x' := OnCommit(x, m, saved).0;
    assert Sound(x) && Placed(k, x);
    CommitPlaced(k, x, m, saved);
    CommitEffect(x, m, saved);
    CommitKeepsSync(w, k, m, saved);
    if x' != x && k == w.config.backup && !Begun(w.config) {
      LateCommitAtBackup(w, m, saved);
    }
  }

  // ---------------------------------------------------------------- late aborts

  lemma LateAbort(w: World, k: string, m: Decision, saved: bool)
    requires Inv(w) && k in w.replicas && MailOk(Cancellation(m), w.config, w.replicas[w.config.primary].records)
    requires !SupersededAbort(w, Mail(k, Cancellation(m)), saved)
    ensures Undisturbed(w, k, OnAbort(w.replicas[k], m, saved).0)
  {
    var p, x := w.replicas[w.config.primary], w.replicas[k];
    var x' := OnAbort(x, m, saved).0;
    AbortPlaced(k, x, m, saved);
    if x' != x && k == w.config.backup && !Begun(w.config) {
      AbortPaired(p, x, m, saved);
    }
  }

  // ---------------------------------------------------------------- any late call

  lemma LateUndisturbed(w: World, mail: Mail, saved: bool)
    requires Inv(w) && Enabled(w, Late(mail, saved))
    ensures Undisturbed(w, mail.target, Handled(w.replicas[mail.target], mail.message, saved))
  {
    assert MailOk(mail.message, w.config, w.replicas[w.config.primary].records);
    match mail.message
    case Preparation(m) => LatePrepare(w, mail.target, m, saved);
    case Commitment(m) => LateCommit(w, mail.target, m, saved);
    case Cancellation(m) => LateAbort(w, mail.target, m, saved);
  }

  lemma HandledSound(x: State, message: Message, config: Config, decided: map<string, Record>, saved: bool)
    requires Sound(x) && MailOk(message, config, decided)
    ensures Sound(Handled(x, message, saved))
  {
    match message
    case Preparation(m) => OnPrepareSound(x, m, saved);
    case Commitment(m) => OnCommitSound(x, m, saved);
    case Cancellation(m) => OnAbortSound(x, m, saved);
  }

  /** However late a call takes effect, and however often, it keeps the invariant. */
  lemma LateInv(w: World, mail: Mail, saved: bool)
    requires Inv(w) && Enabled(w, Late(mail, saved))
    ensures Inv(Next(w, Late(mail, saved)))
  {
    var k, decided := mail.target, w.replicas[w.config.primary].records;
    assert Sound(w.replicas[k]) && Placed(k, w.replicas[k]) && MailOk(mail.message, w.config, decided);
    assert Covered(w.replicas[w.config.backup].records, w.replicas[k]);
    HandledSound(w.replicas[k], mail.message, w.config, decided, saved);
    HandledPlaced(k, w.replicas[k], mail.message, saved);
    LateUndisturbed(w, mail, saved);
    HandledInv(w, k, Handled(w.replicas[k], mail.message, saved));
  }
}
