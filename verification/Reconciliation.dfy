/** The reveal of overdue auctions: which ones it touches, and when it leaves none behind. */
module Reconciliation {
  import opened Text
  import opened AuctionDomain
  import opened AuctionLog
  import opened Replica
  import opened LocalInvariant

  predicate Overdue(auction: Auction, now: real)
  {
    auction.state == Open && HasEnded(auction, now)
  }

  function OverdueIds(auctions: map<string, Auction>, now: real): set<string>
  {
    set k | k in auctions && Overdue(auctions[k], now)
  }

  function RevealId(auctionId: string): string
  {
    "overdue-reveal:" + auctionId
  }

  lemma RevealIdInjective(a: string, b: string)
    requires RevealId(a) == RevealId(b)
    ensures a == b
  {
    assert RevealId(a)[|"overdue-reveal:"|..] == a && RevealId(b)[|"overdue-reveal:"|..] == b;
  }

  function RevealRequest(auctionId: string, auction: Auction, epoch: int): MutationRequest
  {
    MutationRequest(
      Reveal,
      RequestedAuction(auctionId, auction.sellerId, "", "", "", Finite(0.0), map[], Unspecified, 0, None, false),
      "", auction.version, RevealId(auctionId), epoch)
  }

  predicate MayReconcile(r: State, epoch: int)
  {
    r.role == Primary && r.ready && epoch == r.epoch && r.backup != ""
  }

  /** Reveals one auction through the replicated path if it is still open and overdue. */
  function Finalize(r: State, auctionId: string, epoch: int, now: real, net: Network): (State, Option<Response>)
  {
    if !MayReconcile(r, epoch) || auctionId !in r.auctions || !Overdue(r.auctions[auctionId], now) then (r, None)
    else
      var (r', response) := Apply(r, RevealRequest(auctionId, r.auctions[auctionId], epoch), now, net);
      (r', Some(response))
  }

  type Networks = map<string, Network>

  const SILENCE := Network(None, false, None, false)

  function NetworkFor(nets: Networks, auctionId: string): Network
  {
    if auctionId in nets then nets[auctionId] else SILENCE
  }

  function FinalizeAll(r: State, ids: seq<string>, epoch: int, now: real, nets: Networks): State
  {
    if ids == [] then r
    else
      var last := ids[|ids| - 1];
      Finalize(FinalizeAll(r, ids[..|ids| - 1], epoch, now, nets), last, epoch, now, NetworkFor(nets, last)).0
  }

  lemma FinalizeOneMore(r: State, ids: seq<string>, i: nat, epoch: int, now: real, nets: Networks)
    requires i < |ids|
    ensures FinalizeAll(r, ids[..i + 1], epoch, now, nets) ==
            Finalize(FinalizeAll(r, ids[..i], epoch, now, nets), ids[i], epoch, now, NetworkFor(nets, ids[i])).0
  {
    assert ids[..i + 1][..i] == ids[..i];
  }

  /** One pass: the overdue auctions of the moment, one after the other in sorted order. */
  function Reconcile(r: State, epoch: int, now: real, nets: Networks): State
  {
    if !MayReconcile(r, epoch) then r else FinalizeAll(r, Sorted(OverdueIds(r.auctions, now)), epoch, now, nets)
  }

  /** The replies of a pass over `ids`, in the order of the ids that still called for one. */
  function AnswersOf(r: State, ids: seq<string>, epoch: int, now: real, nets: Networks): seq<Response>
  {
    if ids == [] then []
    else
      var front, last := ids[..|ids| - 1], ids[|ids| - 1];
      var answer := Finalize(FinalizeAll(r, front, epoch, now, nets), last, epoch, now, NetworkFor(nets, last)).1;
      AnswersOf(r, front, epoch, now, nets) + (if answer.Some? then [answer.value] else [])
  }

  lemma AnswersOneMore(r: State, ids: seq<string>, i: nat, epoch: int, now: real, nets: Networks)
    requires i < |ids|
    ensures var answer :=
        Finalize(FinalizeAll(r, ids[..i], epoch, now, nets), ids[i], epoch, now, NetworkFor(nets, ids[i])).1;
      AnswersOf(r, ids[..i + 1], epoch, now, nets) ==
      AnswersOf(r, ids[..i], epoch, now, nets) + (if answer.Some? then [answer.value] else [])
  {
    assert ids[..i + 1][..i] == ids[..i];
  }

  function Answers(r: State, epoch: int, now: real, nets: Networks): seq<Response>
  {
    if !MayReconcile(r, epoch) then [] else AnswersOf(r, Sorted(OverdueIds(r.auctions, now)), epoch, now, nets)
  }

  // ---------------------------------------------------------------- one auction

  /** Auctions sit under their ids with a valid acceptance order. */
  predicate Tidy(auctions: map<string, Auction>)
  {
    forall k :: k in auctions ==> k != "" && auctions[k].auctionId == k && AcceptanceOrderValid(auctions[k])
  }

  lemma SoundIsTidy(r: State)
    requires Sound(r)
    ensures Tidy(r.auctions)
  {
  }

  /** The request id is unused and the seller id is one the reveal check accepts. */
  predicate Revealable(r: State, auctionId: string)
    requires auctionId in r.auctions
  {
    RevealId(auctionId) !in r.records && RevealId(auctionId) !in r.aborted && Trimmed(r.auctions[auctionId].sellerId)
  }

  /** Every call is answered as an attentive backup answers it, and every save succeeds. */
  predicate Healthy(net: Network, version: int)
  {
    net == Network(Some(PrepareReply(true, version)), true, Some(DecisionReply(true, version)), true)
  }

  /** The reveal of one auction changes that auction alone, and only from open to its revealed form. */
  predicate RevealedAt(r: State, r': State, auctionId: string)
  {
    && auctionId in r.auctions && AcceptanceOrderValid(r.auctions[auctionId])
    && r'.auctions == r.auctions[auctionId := BuildRevealCandidate(r.auctions[auctionId])]
    && r'.records.Keys == r.records.Keys + {RevealId(auctionId)}
  }

  predicate SameOffice(r: State, r': State)
  {
    && r'.role == r.role && r'.ready == r.ready && r'.epoch == r.epoch && r'.backup == r.backup
    && r'.aborted == r.aborted
  }

  lemma StartOfReveal(r: State, auctionId: string, epoch: int, now: real)
    requires Tidy(r.auctions) && MayReconcile(r, epoch) && auctionId in r.auctions
        && Overdue(r.auctions[auctionId], now)
    ensures var start := StartMutation(r, RevealRequest(auctionId, r.auctions[auctionId], epoch), now);
      if Revealable(r, auctionId) then
        && start.Propose? && start.requestId == RevealId(auctionId)
        && start.candidate == BuildRevealCandidate(r.auctions[auctionId])
      else !start.Propose?
  {
  }

  /** A coordinated commit publishes the candidate with its receipt or leaves both stores alone. */
  lemma CoordinateEffect(r: State, id: string, candidate: Auction, record: Record, previous: int, net: Network)
    ensures var r' := Coordinate(r, id, candidate, record, previous, net).0;
      && SameOffice(r, r')
      && ((r'.auctions == r.auctions && r'.records == r.records)
          || (r'.auctions == r.auctions[candidate.auctionId := candidate] && r'.records == r.records[id := record]))
  {
  }

  lemma UnproposedEffect(r: State, request: MutationRequest, now: real, net: Network)
    requires !StartMutation(r, request, now).Propose?
    ensures var r' := Apply(r, request, now, net).0;
      SameOffice(r, r') && r'.auctions == r.auctions && r'.records == r.records
  {
  }

  lemma RevealedStaysTidy(auctions: map<string, Auction>, auctionId: string)
    requires Tidy(auctions) && auctionId in auctions
    ensures Tidy(auctions[auctionId := BuildRevealCandidate(auctions[auctionId])])
  {
  }

  lemma FinalizeEffect(r: State, auctionId: string, epoch: int, now: real, net: Network)
    requires Tidy(r.auctions)
    ensures var r' := Finalize(r, auctionId, epoch, now, net).0;
      && SameOffice(r, r') && Tidy(r'.auctions)
      && ((r'.auctions == r.auctions && r'.records == r.records)
          || (RevealedAt(r, r', auctionId) && Overdue(r.auctions[auctionId], now) && Revealable(r, auctionId)))
  {
    if MayReconcile(r, epoch) && auctionId in r.auctions && Overdue(r.auctions[auctionId], now) {
      var request := RevealRequest(auctionId, r.auctions[auctionId], epoch);
      StartOfReveal(r, auctionId, epoch, now);
      var start := StartMutation(r, request, now);
      if start.Propose? {
        assert Apply(r, request, now, net) ==
          Coordinate(r, start.requestId, start.candidate, start.record, start.previousVersion, net);
        CoordinateEffect(r, start.requestId, start.candidate, start.record, start.previousVersion, net);
        RevealedStaysTidy(r.auctions, auctionId);
      } else {
        UnproposedEffect(r, request, now, net);
      }
    }
  }

  /** With the network and the disk working, the reveal succeeds exactly when the auction is revealable. */
  lemma FinalizeRevealsIff(r: State, auctionId: string, epoch: int, now: real, net: Network)
    requires Tidy(r.auctions) && MayReconcile(r, epoch) && auctionId in r.auctions
        && Overdue(r.auctions[auctionId], now)
    requires Healthy(net, r.auctions[auctionId].version + 1)
    ensures RevealedAt(r, Finalize(r, auctionId, epoch, now, net).0, auctionId) <==> Revealable(r, auctionId)
  {
    StartOfReveal(r, auctionId, epoch, now);
    FinalizeEffect(r, auctionId, epoch, now, net);
    if !Revealable(r, auctionId) {
      assert BuildRevealCandidate(r.auctions[auctionId]) != r.auctions[auctionId];
    }
  }

  // ---------------------------------------------------------------- a whole pass

  type Stores = map<string, Auction>

  predicate Due(r: State, now: real, k: string)
  {
    k in r.auctions && Overdue(r.auctions[k], now) && Revealable(r, k)
  }

  function RevealedForm(auction: Auction): Auction
  {
    if AcceptanceOrderValid(auction) then BuildRevealCandidate(auction) else auction
  }

  /** The revealed form of every auction a pass may reveal. */
  function Targets(r: State, now: real): Stores
  {
    map k | k in r.auctions && Due(r, now, k) :: RevealedForm(r.auctions[k])
  }

  predicate Untouched(r: State, r': State, k: string)
  {
    && Lookup(r'.auctions, k) == Lookup(r.auctions, k)
    && (RevealId(k) in r'.records <==> RevealId(k) in r.records)
  }

  predicate Outcome(before: Stores, after: Stores, k: string, targets: Stores)
  {
    Lookup(after, k) == Lookup(before, k) || (k in targets && Lookup(after, k) == Some(targets[k]))
  }

  /** What a pass over `ids` may have done so far. */
  ghost predicate PassedOver(r: State, r': State, ids: seq<string>, targets: Stores)
  {
    && SameOffice(r, r') && r'.auctions.Keys == r.auctions.Keys
    && (forall k :: k in ids ==> Outcome(r.auctions, r'.auctions, k, targets))
    && (forall k :: k !in ids ==> Untouched(r, r', k))
  }

  /** What finalizing one auction may have done. */
  predicate FinalizedAt(r: State, r': State, id: string, targets: Stores)
  {
    || (r'.auctions == r.auctions && r'.records == r.records)
    || (id in targets && id in r.auctions && r'.auctions == r.auctions[id := targets[id]]
        && r'.records.Keys == r.records.Keys + {RevealId(id)})
  }

  lemma OneMoreFinalized(r: State, middle: State, last: State, ids: seq<string>, id: string, targets: Stores)
    requires PassedOver(r, middle, ids, targets) && id !in ids && SameOffice(middle, last)
    requires FinalizedAt(middle, last, id, targets)
    ensures PassedOver(r, last, ids + [id], targets)
  {
    forall k | k !in ids + [id] ensures Untouched(r, last, k) {
      assert Untouched(r, middle, k);
      if RevealId(k) == RevealId(id) {
        RevealIdInjective(k, id);
      }
    }
    forall k | k in ids + [id] ensures Outcome(r.auctions, last.auctions, k, targets) {
      if k == id {
        assert Untouched(r, middle, k);
      } else {
        assert Outcome(r.auctions, middle.auctions, k, targets);
      }
    }
  }

  /** An auction a pass has not come to yet is finalized from the state it started in. */
  lemma FinalizeNext(r: State, middle: State, id: string, epoch: int, now: real, net: Network)
    requires Tidy(middle.auctions) && Untouched(r, middle, id) && SameOffice(r, middle)
    ensures var last := Finalize(middle, id, epoch, now, net).0;
      SameOffice(middle, last) && Tidy(last.auctions) && FinalizedAt(middle, last, id, Targets(r, now))
  {
    FinalizeEffect(middle, id, epoch, now, net);
    var last := Finalize(middle, id, epoch, now, net).0;
    if !(last.auctions == middle.auctions && last.records == middle.records) {
      assert Due(r, now, id);
    }
  }

  lemma {:induction false} FinalizeAllEffect(r: State, ids: seq<string>, epoch: int, now: real, nets: Networks)
    requires Tidy(r.auctions)
    requires forall i, j :: 0 <= i < j < |ids| ==> ids[i] != ids[j]
    ensures var r' := FinalizeAll(r, ids, epoch, now, nets);
      Tidy(r'.auctions) && PassedOver(r, r', ids, Targets(r, now))
    decreases |ids|
  {
    if ids != [] {
      var front, last := ids[..|ids| - 1], ids[|ids| - 1];
      FinalizeAllEffect(r, front, epoch, now, nets);
      var middle := FinalizeAll(r, front, epoch, now, nets);
      FinalizeNext(r, middle, last, epoch, now, NetworkFor(nets, last));
      OneMoreFinalized(r, middle, Finalize(middle, last, epoch, now, NetworkFor(nets, last)).0, front, last,
          Targets(r, now));
      assert front + [last] == ids;
    }
  }

  lemma PassEffect(r: State, epoch: int, now: real, nets: Networks)
    requires Tidy(r.auctions)
    ensures var r' := Reconcile(r, epoch, now, nets);
      && Tidy(r'.auctions) && r'.auctions.Keys == r.auctions.Keys
      && forall k :: Outcome(r.auctions, r'.auctions, k, Targets(r, now))
  {
    var ids := Sorted(OverdueIds(r.auctions, now));
    SortedIsDistinct(OverdueIds(r.auctions, now));
    FinalizeAllEffect(r, ids, epoch, now, nets);
    var r' := Reconcile(r, epoch, now, nets);
    forall k ensures Outcome(r.auctions, r'.auctions, k, Targets(r, now)) {
      if MayReconcile(r, epoch) && k !in ids {
        assert Untouched(r, r', k);
      }
    }
  }

  /**
   * Whatever the network does, a pass turns some overdue open auctions into their revealed form and leaves every
   * other auction as it was; what it revealed is never overdue again.
   */
  lemma OnlyOverdueRevealed(r: State, epoch: int, now: real, nets: Networks, k: string)
    requires Tidy(r.auctions) && k in r.auctions
    ensures var r' := Reconcile(r, epoch, now, nets);
      && k in r'.auctions
      && (r'.auctions[k] != r.auctions[k] ==>
            && Overdue(r.auctions[k], now) && AcceptanceOrderValid(r.auctions[k])
            && r'.auctions[k] == BuildRevealCandidate(r.auctions[k])
            && forall later :: !Overdue(r'.auctions[k], later))
  {
    PassEffect(r, epoch, now, nets);
    var r' := Reconcile(r, epoch, now, nets);
    assert Outcome(r.auctions, r'.auctions, k, Targets(r, now));
    if r'.auctions[k] != r.auctions[k] {
      assert Due(r, now, k);
    }
  }

  /** However many passes follow, an auction changes in at most one of them. */
  lemma RevealedOnce(r: State, epoch: int, now: real, nets: Networks, epoch2: int, now2: real, nets2: Networks,
      k: string)
    requires Tidy(r.auctions) && k in r.auctions
    ensures var once := Reconcile(r, epoch, now, nets);
      var twice := Reconcile(once, epoch2, now2, nets2);
      && k in once.auctions && k in twice.auctions
      && (once.auctions[k] != r.auctions[k] ==> twice.auctions[k] == once.auctions[k])
  {
    PassEffect(r, epoch, now, nets);
    OnlyOverdueRevealed(r, epoch, now, nets, k);
    var once := Reconcile(r, epoch, now, nets);
    OnlyOverdueRevealed(once, epoch2, now2, nets2, k);
  }

  // ---------------------------------------------------------------- when every commit succeeds

  /** The networks of a pass all work. */
  predicate AllHealthy(auctions: Stores, nets: Networks, now: real)
  {
    forall k :: k in OverdueIds(auctions, now) ==> Healthy(NetworkFor(nets, k), auctions[k].version + 1)
  }

  lemma NotYetTouched(r: State, front: seq<string>, id: string, epoch: int, now: real, nets: Networks)
    requires Tidy(r.auctions) && id !in front
    requires forall i, j :: 0 <= i < j < |front| ==> front[i] != front[j]
    ensures var middle := FinalizeAll(r, front, epoch, now, nets);
      Tidy(middle.auctions) && SameOffice(r, middle) && Untouched(r, middle, id)
  {
    FinalizeAllEffect(r, front, epoch, now, nets);
  }

  lemma HealthyReaches(r: State, middle: State, id: string, epoch: int, now: real, net: Network)
    requires Tidy(middle.auctions) && MayReconcile(middle, epoch) && Untouched(r, middle, id) && SameOffice(r, middle)
    requires Due(r, now, id) && Healthy(net, r.auctions[id].version + 1)
    ensures var last := Finalize(middle, id, epoch, now, net).0;
      Lookup(last.auctions, id) == Some(RevealedForm(r.auctions[id]))
  {
  }

  lemma OtherKept(middle: State, id: string, epoch: int, now: real, net: Network, k: string)
    requires Tidy(middle.auctions) && k != id
    ensures Lookup(Finalize(middle, id, epoch, now, net).0.auctions, k) == Lookup(middle.auctions, k)
  {
  }

  lemma {:induction false} FinalizeAllReaches(r: State, ids: seq<string>, epoch: int, now: real, nets: Networks,
      k: string)
    requires Tidy(r.auctions) && MayReconcile(r, epoch)
    requires forall i, j :: 0 <= i < j < |ids| ==> ids[i] != ids[j]
    requires k in ids && Due(r, now, k) && Healthy(NetworkFor(nets, k), r.auctions[k].version + 1)
    ensures Lookup(FinalizeAll(r, ids, epoch, now, nets).auctions, k) == Some(RevealedForm(r.auctions[k]))
    decreases |ids|
  {
    var front, id := ids[..|ids| - 1], ids[|ids| - 1];
    NotYetTouched(r, front, id, epoch, now, nets);
    var middle := FinalizeAll(r, front, epoch, now, nets);
    if id == k {
      HealthyReaches(r, middle, k, epoch, now, NetworkFor(nets, k));
    } else {
      FinalizeAllReaches(r, front, epoch, now, nets, k);
      OtherKept(middle, id, epoch, now, NetworkFor(nets, id), k);
    }
  }

  lemma TargetsAre(r: State, now: real, k: string)
    requires Tidy(r.auctions)
    ensures k in Targets(r, now) <==> k in OverdueIds(r.auctions, now) && Revealable(r, k)
    ensures k in Targets(r, now) ==> Due(r, now, k) && Targets(r, now)[k] == RevealedForm(r.auctions[k])
    ensures k in Targets(r, now) ==> RevealedForm(r.auctions[k]).state == Revealed
  {
  }

  /** A pass in which everything works brings each auction that is due to its revealed form. */
  lemma HealthyPass(r: State, epoch: int, now: real, nets: Networks, k: string)
    requires Tidy(r.auctions) && MayReconcile(r, epoch) && AllHealthy(r.auctions, nets, now) && Due(r, now, k)
    ensures Lookup(Reconcile(r, epoch, now, nets).auctions, k) == Some(RevealedForm(r.auctions[k]))
  {
    SortedIsDistinct(OverdueIds(r.auctions, now));
    assert k in OverdueIds(r.auctions, now);
    FinalizeAllReaches(r, Sorted(OverdueIds(r.auctions, now)), epoch, now, nets, k);
  }

  lemma OutcomeOf(r: State, epoch: int, now: real, nets: Networks, k: string)
    requires Tidy(r.auctions)
    ensures Outcome(r.auctions, Reconcile(r, epoch, now, nets).auctions, k, Targets(r, now))
  {
    PassEffect(r, epoch, now, nets);
  }

  lemma RemainsIff(before: Stores, after: Stores, k: string, targets: Stores, now: real)
    requires Outcome(before, after, k, targets)
    requires k in targets ==> targets[k].state == Revealed && Lookup(after, k) == Some(targets[k])
    ensures k in OverdueIds(after, now) <==> k in OverdueIds(before, now) && k !in targets
  {
  }

  /** When every commit succeeds, the open overdue auctions that remain are exactly those nobody can reveal. */
  lemma RemainingAreUnrevealable(r: State, epoch: int, now: real, nets: Networks, k: string)
    requires Tidy(r.auctions) && MayReconcile(r, epoch) && AllHealthy(r.auctions, nets, now)
    ensures k in OverdueIds(Reconcile(r, epoch, now, nets).auctions, now) <==>
            k in OverdueIds(r.auctions, now) && !Revealable(r, k)
  {
    TargetsAre(r, now, k);
    OutcomeOf(r, epoch, now, nets, k);
    if k in Targets(r, now) {
      HealthyPass(r, epoch, now, nets, k);
    }
    RemainsIff(r.auctions, Reconcile(r, epoch, now, nets).auctions, k, Targets(r, now), now);
  }

  // ---------------------------------------------------------------- the replies of a pass

  /** The turn of one auction in a pass: its reveal from the state its predecessors left. */
  function Turn(r: State, ids: seq<string>, i: nat, epoch: int, now: real, nets: Networks): (State, Option<Response>)
    requires i < |ids|
  {
    Finalize(FinalizeAll(r, ids[..i], epoch, now, nets), ids[i], epoch, now, NetworkFor(nets, ids[i]))
  }

  predicate Distinct(ids: seq<string>)
  {
    forall i, j :: 0 <= i < j < |ids| ==> ids[i] != ids[j]
  }

  predicate AllOverdue(r: State, ids: seq<string>, now: real)
  {
    Distinct(ids) && forall k :: k in ids ==> k in r.auctions && Overdue(r.auctions[k], now)
  }

  lemma TurnAnswers(r: State, ids: seq<string>, i: nat, epoch: int, now: real, nets: Networks)
    requires Tidy(r.auctions) && MayReconcile(r, epoch) && AllOverdue(r, ids, now) && i < |ids|
    ensures var middle := FinalizeAll(r, ids[..i], epoch, now, nets);
      && Tidy(middle.auctions) && MayReconcile(middle, epoch) && Untouched(r, middle, ids[i])
      && SameOffice(r, middle) && Turn(r, ids, i, epoch, now, nets).1.Some?
  {
    NotYetTouched(r, ids[..i], ids[i], epoch, now, nets);
    assert ids[i] in ids;
  }

  lemma {:induction false} AnswersAre(r: State, ids: seq<string>, epoch: int, now: real, nets: Networks, i: nat)
    requires Tidy(r.auctions) && MayReconcile(r, epoch) && AllOverdue(r, ids, now) && i < |ids|
    ensures i < |AnswersOf(r, ids, epoch, now, nets)| == |ids|
    ensures Turn(r, ids, i, epoch, now, nets).1 == Some(AnswersOf(r, ids, epoch, now, nets)[i])
    decreases |ids|
  {
    var n := |ids| - 1;
    TurnAnswers(r, ids, n, epoch, now, nets);
    AnswersOneMore(r, ids, n, epoch, now, nets);
    assert ids[..n + 1] == ids;
    if n > 0 {
      AnswersAre(r, ids[..n], epoch, now, nets, if i < n then i else 0);
      assert i < n ==> ids[..n][..i] == ids[..i];
    }
  }

  /** Every overdue auction gets exactly one reply, in sorted order, from the state its predecessors left. */
  lemma OneAnswerEach(r: State, epoch: int, now: real, nets: Networks, i: nat)
    requires Tidy(r.auctions) && MayReconcile(r, epoch) && i < |Sorted(OverdueIds(r.auctions, now))|
    ensures var ids, answers := Sorted(OverdueIds(r.auctions, now)), Answers(r, epoch, now, nets);
      |answers| == |ids| && Turn(r, ids, i, epoch, now, nets).1 == Some(answers[i])
  {
    SortedIsDistinct(OverdueIds(r.auctions, now));
    AnswersAre(r, Sorted(OverdueIds(r.auctions, now)), epoch, now, nets, i);
  }

  /** A success that is not a replay has revealed the auction. */
  lemma FreshAnswerReveals(r: State, id: string, epoch: int, now: real, net: Network)
    requires Tidy(r.auctions) && MayReconcile(r, epoch) && id in r.auctions && Overdue(r.auctions[id], now)
    requires var answer := Finalize(r, id, epoch, now, net).1.value; answer.success && !answer.replayed
    ensures Revealable(r, id)
    ensures Lookup(Finalize(r, id, epoch, now, net).0.auctions, id) == Some(RevealedForm(r.auctions[id]))
  {
    StartOfReveal(r, id, epoch, now);
  }

  lemma {:induction false} KeptToTheEnd(r: State, ids: seq<string>, i: nat, epoch: int, now: real, nets: Networks)
    requires Tidy(r.auctions) && i < |ids| && Distinct(ids)
    ensures Lookup(FinalizeAll(r, ids, epoch, now, nets).auctions, ids[i]) ==
            Lookup(Turn(r, ids, i, epoch, now, nets).0.auctions, ids[i])
    decreases |ids|
  {
    var n := |ids| - 1;
    if i < n {
      var front := ids[..n];
      KeptToTheEnd(r, front, i, epoch, now, nets);
      assert front[..i] == ids[..i];
      FinalizeAllEffect(r, front, epoch, now, nets);
      OtherKept(FinalizeAll(r, front, epoch, now, nets), ids[n], epoch, now, NetworkFor(nets, ids[n]), ids[i]);
    }
  }

  lemma AnswerReveals(r: State, ids: seq<string>, i: nat, epoch: int, now: real, nets: Networks)
    requires Tidy(r.auctions) && MayReconcile(r, epoch) && AllOverdue(r, ids, now) && i < |ids|
    requires var answer := Turn(r, ids, i, epoch, now, nets).1;
      answer.Some? && answer.value.success && !answer.value.replayed
    ensures ids[i] in r.auctions
    ensures Lookup(FinalizeAll(r, ids, epoch, now, nets).auctions, ids[i]) == Some(RevealedForm(r.auctions[ids[i]]))
  {
    TurnAnswers(r, ids, i, epoch, now, nets);
    assert ids[i] in ids;
    FreshAnswerReveals(FinalizeAll(r, ids[..i], epoch, now, nets), ids[i], epoch, now, NetworkFor(nets, ids[i]));
    KeptToTheEnd(r, ids, i, epoch, now, nets);
  }

  /** Wherever a pass replies with a fresh success, the auction is revealed when the pass ends. */
  lemma AnswersTellReveals(r: State, epoch: int, now: real, nets: Networks, i: nat)
    requires Tidy(r.auctions) && MayReconcile(r, epoch) && i < |Sorted(OverdueIds(r.auctions, now))|
    requires i < |Answers(r, epoch, now, nets)|
    requires Answers(r, epoch, now, nets)[i].success && !Answers(r, epoch, now, nets)[i].replayed
    ensures var id := Sorted(OverdueIds(r.auctions, now))[i];
      id in r.auctions && Lookup(Reconcile(r, epoch, now, nets).auctions, id) == Some(RevealedForm(r.auctions[id]))
  {
    OneAnswerEach(r, epoch, now, nets, i);
    SortedIsDistinct(OverdueIds(r.auctions, now));
    AnswerReveals(r, Sorted(OverdueIds(r.auctions, now)), i, epoch, now, nets);
  }
}
