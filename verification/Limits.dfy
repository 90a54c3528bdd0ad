/** Where the guarantees stop: the exact condition of each, for all inputs. */
module Limits {
  import opened Text
  import opened AuctionDomain
  import opened AuctionLog
  import opened Replica
  import opened LocalInvariant
  import opened Cluster
  import opened PairInvariant
  import opened ClusterInvariant
  import opened MutationSteps
  import opened MailSteps
  import opened ConfigSteps

  // ---------------------------------------------------------------- the reprotection window

  /**
   * A freshly installed copy and the primary form an intact pair exactly when the primary's stores are still
   * the ones that were read: any decision taken in between is missing from the copy.
   */
  lemma CopyAgreesIffUnchanged(p: State, t: State, full: FullState, epoch: int)
    requires Copied(t, full, epoch)
    ensures Paired(p, t) <==> p.auctions == full.auctions && p.records == full.records
  {
    if Paired(p, t) {
      forall id | id in p.records ensures id in t.records {
        assert id !in t.records ==> Ahead(p, t, id);
      }
      forall a ensures Lookup(p.auctions, a) == Lookup(t.auctions, a) {
        assert InStep(p, t, a) || AheadOn(p, t, a);
      }
      SameLookups(p.auctions, t.auctions);
      assert p.records == t.records;
    } else if p.auctions == full.auctions && p.records == full.records {
      CopyPaired(p, t);
    }
  }

  lemma SameLookups<V>(m: map<string, V>, n: map<string, V>)
    requires forall k: string :: Lookup(m, k) == Lookup(n, k)
    ensures m == n
  {
    forall k: string ensures k in m <==> k in n {
      assert Lookup(m, k) == Lookup(n, k);
    }
    assert m.Keys == n.Keys;
    forall k | k in m ensures m[k] == n[k] {
      assert Lookup(m, k) == Lookup(n, k);
    }
  }

  /**
   * Whatever happens between the fetch and the moment the target is used, it holds every acknowledgement exactly when
   * each receipt acknowledged in between is in the state that was fetched.
   */
  lemma WindowKeepsAcknowledgementsIff(w: World, target: string, events: seq<Event>, later: World, epoch: int)
    requires Inv(w) && Allowed(w, Fetch(target)) && !Begun(w.config)
    requires Wild(Next(w, Fetch(target)), events, later)
    requires var p := w.replicas[w.config.primary];
      target in later.replicas && Copied(later.replicas[target], FullState(p.auctions, p.records), epoch)
    ensures AckedHeld(later.replicas[target].records, later.acked) <==>
      forall id :: id in later.acked && Lookup(w.acked, id) != Some(later.acked[id]) ==>
        Held(w.replicas[w.config.primary].records, id, later.acked[id])
  {
    var p, x := w.replicas[w.config.primary], w.replicas[w.config.backup];
    forall id | id in w.acked ensures Held(p.records, id, w.acked[id]) {
      assert Held(x.records, id, w.acked[id]);
    }
  }

  // ---------------------------------------------------------------- completions of superseded attempts

  /** A completion at the pair keeps the invariant exactly when it belongs to the current attempt or changes nothing. */
  lemma CompletionKeepsInvIff(w: World, call: Completion, saved: bool)
    requires Inv(w) && Allowed(w, TakeComplete(call, saved))
    requires call.primary == w.config.primary || call.primary == w.config.backup
    ensures Inv(Next(w, TakeComplete(call, saved))) <==> !SupersededCompletion(w, call, saved)
  {
    var w' := Next(w, TakeComplete(call, saved));
    if SupersededCompletion(w, call, saved) {
      var k, s := call.primary, OnComplete(w.replicas[call.primary], call.epoch, call.target, saved).0;
      assert w' == WithReplica(w, k, s) && w'.replicas[k] == s && w'.config == w.config;
      if k == w.config.primary {
        assert !PrimaryOk(s, w.config);
      } else {
        assert s.ready;
        assert !BackupOk(w'.replicas[w.config.primary], s, w.config);
      }
    } else {
      CompleteInv(w, call, saved);
    }
  }

  /**
   * At a replica outside the pair it keeps the invariant exactly when the replica stays fenced by its new backup and
   * can confirm no receipt that the designated backup lacks.
   */
  lemma CompletionElsewhereIff(w: World, call: Completion, saved: bool)
    requires Inv(w) && Allowed(w, TakeComplete(call, saved)) && SupersededCompletion(w, call, saved)
    requires call.primary != w.config.primary && call.primary != w.config.backup
    ensures var s := OnComplete(w.replicas[call.primary], call.epoch, call.target, saved).0;
      Inv(Next(w, TakeComplete(call, saved))) <==>
        Fenced(w.replicas[call.primary := s], s) && Covered(w.replicas[w.config.backup].records, s)
  {
    var k := call.primary;
    var s := OnComplete(w.replicas[k], call.epoch, call.target, saved).0;
    assert Sound(w.replicas[k]) && Placed(k, w.replicas[k]);
    ReconfiguredPlaced(k, w.replicas[k], call, saved);
    if Fenced(w.replicas[k := s], s) && Covered(w.replicas[w.config.backup].records, s) {
      ForeignCompletion(w, k, s);
    }
    if Inv(WithReplica(w, k, s)) {
      ForeignNeeds(w, k, s);
    }
  }

  lemma ReconfiguredPlaced(k: string, r: State, call: Completion, saved: bool)
    requires Sound(r) && Placed(k, r)
    ensures var s := OnComplete(r, call.epoch, call.target, saved).0;
      s != r ==>
        && Sound(s) && Placed(k, s) && r.role == Primary && OnComplete(r, call.epoch, call.target, saved).1
        && s == r.(backup := s.backup, ready := true, reported := true)
  {
  }

  lemma ForeignNeeds(w: World, k: string, s: State)
    requires k != w.config.primary && k != w.config.backup && w.config.backup in w.replicas && Inv(WithReplica(w, k, s))
    ensures Fenced(w.replicas[k := s], s) && Covered(w.replicas[w.config.backup].records, s)
  {
    var after := WithReplica(w, k, s).replicas;
    assert Fenced(after, after[k]) && Covered(after[w.config.backup].records, after[k]);
  }

  lemma ForeignCompletion(w: World, k: string, s: State)
    requires Inv(w) && k in w.replicas && k !in w.ops && k != w.config.primary && k != w.config.backup
    requires w.replicas[k].role == Primary && Sound(s) && Placed(k, s)
    requires s == w.replicas[k].(backup := s.backup, ready := true, reported := true)
    requires Fenced(w.replicas[k := s], s) && Covered(w.replicas[w.config.backup].records, s)
    ensures Inv(WithReplica(w, k, s))
  {
    var records := w.replicas[w.config.backup].records;
    StoreReplica(w.replicas, w.ops, k, s, NewestEpoch(w.config));
    FenceKept(w.replicas, k, s, w.config.primary);
    CoverGrows(w.replicas, w.replicas[k := s], k, records, records);
    Assemble(WithReplica(w, k, s));
  }

  // ---------------------------------------------------------------- installations of superseded attempts

  /**
   * The copy is, at its epoch, what the primary holds, and no decision is about to rest on the backup's preparation.
   */
  predicate Harmless(w: World, copy: Copy)
    requires w.config.primary in w.replicas
  {
    var p, op := w.replicas[w.config.primary], GetOp(w.ops, w.config.primary);
    && copy.epoch == w.config.epoch && copy.full == FullState(p.auctions, p.records)
    && !(op.Some? && op.value.stage == Prepared)
  }

  /** The synchronization slot after the copy was installed. */
  function SlotAfter(config: Config, copy: Copy): Config
  {
    var sync := SyncOf(config.mode);
    if sync.Some? && sync.value.target == copy.target then
      WithSync(config, sync.value.(installed := CurrentCopy(config, copy)))
    else config
  }

  function Overwritten(w: World, copy: Copy, t: State): World
  {
    WithReplica(w, copy.target, t).(config := SlotAfter(w.config, copy))
  }

  lemma InstallNext(w: World, copy: Copy, saved: bool)
    requires Allowed(w, Install(copy, saved)) && OnInstall(w.replicas[copy.target], copy.full, copy.epoch, saved).1
    ensures Next(w, Install(copy, saved)) ==
            Overwritten(w, copy, OnInstall(w.replicas[copy.target], copy.full, copy.epoch, saved).0)
  {
  }

  /** A state installed over the designated backup keeps the invariant exactly when it is harmless. */
  lemma InstallationKeepsInvIff(w: World, copy: Copy, saved: bool)
    requires Inv(w) && Allowed(w, Install(copy, saved)) && !Begun(w.config) && copy.target == w.config.backup
    requires OnInstall(w.replicas[copy.target], copy.full, copy.epoch, saved).1
    ensures Inv(Next(w, Install(copy, saved))) <==> Harmless(w, copy)
  {
    var t := OnInstall(w.replicas[copy.target], copy.full, copy.epoch, saved).0;
    InstalledFits(w, copy, saved);
    InstallNext(w, copy, saved);
    if Harmless(w, copy) {
      InstalledOverBackup(w, copy, t);
    }
    if Inv(Overwritten(w, copy, t)) {
      OverwrittenAgrees(w, copy, t);
    }
  }

  lemma OverwrittenAgrees(w: World, copy: Copy, t: State)
    requires Shape(w.replicas, w.config) && copy.target == w.config.backup && Copied(t, copy.full, copy.epoch)
    requires Inv(Overwritten(w, copy, t)) && !Begun(w.config)
    ensures Harmless(w, copy)
  {
    CopyAgreesIffUnchanged(w.replicas[w.config.primary], t, copy.full, copy.epoch);
  }

  ghost predicate FreshOverBackup(w: World, copy: Copy, t: State)
  {
    && Inv(w) && !Begun(w.config) && copy.target == w.config.backup && w.config.backup !in w.ops
    && Sound(t) && Placed(copy.target, t) && !t.ready && Copied(t, copy.full, copy.epoch)
    && Harmless(w, copy)
  }

  lemma OverBackupPair(w: World, copy: Copy, t: State)
    requires FreshOverBackup(w, copy, t)
    ensures PairOk(w.replicas[copy.target := t], w.ops, SlotAfter(w.config, copy))
  {
    CopyPaired(w.replicas[w.config.primary], t);
  }

  lemma OverBackupCrowd(w: World, copy: Copy, t: State)
    requires FreshOverBackup(w, copy, t)
    ensures CrowdOk(w.replicas[copy.target := t], w.ops, SlotAfter(w.config, copy), w.acked)
  {
    var k := copy.target;
    StoreReplica(w.replicas, w.ops, k, t, w.config.epoch);
    FenceKept(w.replicas, k, t, w.config.primary);
    assert Grows(w.replicas[k].records, t.records);
    CoverGrows(w.replicas, w.replicas[k := t], k, w.replicas[k].records, t.records);
  }

  lemma InstalledOverBackup(w: World, copy: Copy, t: State)
    requires FreshOverBackup(w, copy, t)
    ensures Inv(Overwritten(w, copy, t))
  {
    var decided := w.replicas[w.config.primary].records;
    OverBackupPair(w, copy, t);
    OverBackupCrowd(w, copy, t);
    MailsAge(w.mail, w.config, SlotAfter(w.config, copy), decided, decided);
    Assemble(Overwritten(w, copy, t));
  }

  // ---------------------------------------------------------------- delayed aborts

  /** A delayed abort keeps the invariant exactly when it leaves alone what is decided or about to be. */
  lemma LateAbortKeepsInvIff(w: World, mail: Mail, saved: bool)
    requires Inv(w) && Allowed(w, Late(mail, saved)) && mail.message.Cancellation?
    ensures Inv(Next(w, Late(mail, saved))) <==> !SupersededAbort(w, mail, saved)
  {
    if SupersededAbort(w, mail, saved) {
      AbortLeavesTombstone(w, mail, saved);
    } else {
      LateInv(w, mail, saved);
    }
  }

  lemma AbortLeavesTombstone(w: World, mail: Mail, saved: bool)
    requires Inv(w) && Allowed(w, Late(mail, saved)) && SupersededAbort(w, mail, saved)
    ensures !Inv(Next(w, Late(mail, saved)))
  {
    var p, x, m := w.replicas[w.config.primary], w.replicas[w.config.backup], mail.message.decision;
    var x' := OnAbort(x, m, saved).0;
    assert MailOk(mail.message, w.config, p.records);
    assert m.requestId in x'.aborted && m.requestId !in x'.prepared && !Begun(w.config);
    assert w.config.primary in w.ops ==> OpOk(p, w.ops[w.config.primary]);
    if m.requestId in p.records {
      assert !Paired(p, x');
    } else {
      assert !StageOk(p, x', GetOp(w.ops, w.config.primary), w.config);
    }
  }

  // ---------------------------------------------------------------- untrimmed identifiers

  /**
   * An abort destroys a decided request exactly when its trimmed id is one the primary has decided and the
   * backup has not yet committed, for the same auction.
   */
  lemma AbortDestroysIff(q: State, x: State, m: Decision)
    requires Paired(q, x) && Disjoint(x) && PendingOk(q.records, q.pending)
    requires x.role == Backup && m.epoch == x.epoch && Id(q.address) && m.primaryId == q.address
    requires !Blank(m.requestId) && !Blank(m.auctionId)
    ensures var id := Strip(m.requestId);
      OnAbort(x, m, true).0.aborted.Keys !! q.records.Keys <==>
        !(id in q.records && id !in x.records && q.records[id].response.auctionId == Strip(m.auctionId))
  {
  }

  /** The backup can ever commit what it prepared exactly when the auction id is trimmed. */
  lemma CommitAcceptedIff(x: State, m: Prepare)
    requires x.role == Backup && m.epoch == x.epoch && Id(m.requestId) && Id(m.primaryId)
        && !Blank(m.candidate.auctionId)
    requires m.requestId in x.prepared && x.prepared[m.requestId] == m && m.requestId !in x.aborted
    requires m.candidate.version == VersionOf(x.auctions, Strip(m.candidate.auctionId)) + 1
    ensures OnCommit(x, Decision(m.requestId, m.candidate.auctionId, m.primaryId, m.epoch), true).1.success <==>
            Trimmed(m.candidate.auctionId)
  {
  }

  // ---------------------------------------------------------------- untyped requests

  /**
   * A retried creation is taken for a different request exactly when it carries no mutation type: by then the
   * auction exists and the type the primary derives is no longer that of a creation.
   */
  lemma CreationRetryConflictsIff(p: State, request: MutationRequest, now: real)
    requires p.role == Primary && p.ready && request.epoch == p.epoch
    requires request.requestId != "" && request.requestId in p.records && request.requestId !in p.aborted
    requires request.auction.auctionId in p.auctions
    requires p.records[request.requestId].fingerprint == FingerprintOf(request, EffectiveType(request, None))
    ensures StartMutation(p, request, now) ==
              Reply(Failure(IdempotencyConflict, p.auctions[request.auction.auctionId].version, "")) <==>
            request.mutationType == UnspecifiedType
  {
  }
}
