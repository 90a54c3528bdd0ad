/** Stateless auction rules: request validation, candidate construction and result calculation. */
module AuctionDomain {
  import opened Text

  /** A requested amount; the wire type is floating point, so it need not be finite. */
  datatype Money = Finite(value: real) | PositiveInfinity | NegativeInfinity | NotANumber {
    predicate Positive() {
      PositiveInfinity? || (Finite? && value > 0.0)
    }
  }

  datatype Timestamp = Timestamp(seconds: int, nanos: int) {
    function Instant(): real {
      seconds as real + nanos as real / 1000000000.0
    }
  }

  datatype AuctionState = Unspecified | Open | Revealed

  datatype Outcome = NoBids | ReserveNotMet | SuccessfulSale

  datatype AuctionResult = AuctionResult(
    outcome: Outcome, reserveMet: bool, hasWinner: bool,
    winningBidder: Option<string>, winningAmount: Option<real>)

  datatype ActiveBid = ActiveBid(amount: real, acceptanceOrder: int)

  datatype Auction = Auction(
    auctionId: string, sellerId: string, title: string, category: string, description: string,
    reservePrice: real, bids: map<string, ActiveBid>, state: AuctionState, version: int,
    endsAt: Option<Timestamp>, nextBidSequence: int, result: Option<AuctionResult>)

  datatype MutationType = UnspecifiedType | Create | PlaceBid | WithdrawBid | Reveal

  /** The auction part of a request: amounts are still unchecked. */
  datatype RequestedAuction = RequestedAuction(
    auctionId: string, sellerId: string, title: string, category: string, description: string,
    reservePrice: Money, bids: map<string, Money>, state: AuctionState, version: int,
    endsAt: Option<Timestamp>, hasResult: bool)

  datatype MutationRequest = MutationRequest(
    mutationType: MutationType, auction: RequestedAuction, bidderId: string,
    expectedVersion: int, requestId: string, epoch: int)

  datatype FailureReason =
    | NoFailure | NotFound | InvalidState | ConcurrencyConflict | ReplicationFailed
    | IdempotencyConflict | AcknowledgementPending | StaleEpoch

  datatype Built =
    | Candidate(auction: Auction)
    | Rejected(reason: FailureReason, currentVersion: int)

  // ---------------------------------------------------------------- candidate construction

  function BuildCandidate(
    request: MutationRequest, kind: MutationType, existing: Option<Auction>, now: real): Built
  {
    match existing
    case None => BuildCreateCandidate(request.auction, kind)
    case Some(current) =>
      match ExistingMutationError(request, kind, current)
      case Some(error) => error
      case None =>
        match kind
        case Reveal => Candidate(BuildRevealCandidate(current))
        case PlaceBid => BuildBidCandidate(request, current, now)
        case WithdrawBid => BuildWithdrawCandidate(request, current, now)
        case _ => Rejected(InvalidState, current.version)
  }

  function BuildCreateCandidate(requested: RequestedAuction, kind: MutationType): Built
  {
    if kind != Create then Rejected(NotFound, 0)
    else if !CreateRequestValid(requested) then Rejected(InvalidState, 0)
    else
      Candidate(Auction(
        requested.auctionId, requested.sellerId, requested.title, requested.category,
        requested.description, requested.reservePrice.value, map[], Open, 1, requested.endsAt, 1, None))
  }

  predicate CreateRequestValid(requested: RequestedAuction)
  {
    && !Blank(requested.auctionId)
    && !Blank(requested.sellerId)
    && requested.endsAt.Some?
    && requested.reservePrice.Finite?
    && requested.reservePrice.value > 0.0
    && requested.bids == map[]
    && requested.state != Revealed
    && !requested.hasResult
  }

  /** Checks the stored state first, then immutable fields, then the expected version. */
  function ExistingMutationError(
    request: MutationRequest, kind: MutationType, current: Auction): (error: Option<Built>)
    ensures error.None? ==> AcceptanceOrderValid(current)
    ensures error.None? ==> current.state != Revealed && ExpectedVersion(request) == current.version
    ensures error.Some? ==> error.value.Rejected? && error.value.currentVersion == current.version
  {
    var invalid := Some(Rejected(InvalidState, current.version));
    if current.state == Revealed then invalid
    else if request.auction.state == Revealed && kind != Reveal then invalid
    else if kind == Reveal && Strip(request.auction.sellerId) != current.sellerId then invalid
    else if !AcceptanceOrderValid(current) then invalid
    else if kind != Reveal && IncludesCreationMetadata(request.auction) then invalid
    else if ExpectedVersion(request) != current.version then
      Some(Rejected(ConcurrencyConflict, current.version))
    else None
  }

  function ExpectedVersion(request: MutationRequest): int
  {
    if request.expectedVersion != 0 then request.expectedVersion else request.auction.version
  }

  predicate IncludesCreationMetadata(auction: RequestedAuction)
  {
    || !Blank(auction.sellerId)
    || !Blank(auction.title)
    || !Blank(auction.category)
    || !Blank(auction.description)
    || auction.reservePrice.Positive()
    || auction.endsAt.Some?
  }

  function BuildBidCandidate(request: MutationRequest, current: Auction, now: real): Built
  {
    var bids := request.auction.bids;
    var invalid := Rejected(InvalidState, current.version);
    if |bids| != 1 then invalid
    else
      var bidder := OnlyKey(bids);
      var amount := bids[bidder];
      if Blank(bidder) then invalid
      else if !Blank(request.bidderId) && request.bidderId != bidder then invalid
      else if HasEnded(current, now) then invalid
      else if !amount.Finite? || amount.value <= 0.0 then invalid
      else if bidder in current.bids && amount.value <= current.bids[bidder].amount then invalid
      else
        var sequence := NextBidSequence(current);
        Candidate(current.(
          bids := current.bids[bidder := ActiveBid(amount.value, sequence)],
          nextBidSequence := sequence + 1,
          version := current.version + 1))
  }

  function BuildWithdrawCandidate(request: MutationRequest, current: Auction, now: real): Built
  {
    var bidder := Strip(request.bidderId);
    if HasEnded(current, now) || bidder == "" || bidder !in current.bids then
      Rejected(InvalidState, current.version)
    else
      Candidate(current.(
        bids := current.bids - {bidder},
        nextBidSequence := NextBidSequence(current),
        version := current.version + 1))
  }

  function BuildRevealCandidate(current: Auction): Auction
    requires AcceptanceOrderValid(current)
  {
    var candidate := current.(state := Revealed, version := current.version + 1);
    candidate.(result := Some(BuildResult(candidate)))
  }

  predicate HasEnded(auction: Auction, now: real)
  {
    auction.endsAt.Some? && now >= auction.endsAt.value.Instant()
  }

  lemma SingletonKeys<V>(m: map<string, V>)
    requires |m| == 1
    ensures exists k :: k in m.Keys
    ensures forall j, k :: j in m.Keys && k in m.Keys ==> j == k
  {
    assert |m.Keys| == 1;
    assert m.Keys != {};
    var k :| k in m.Keys;
    assert |m.Keys - {k}| == 0;
    assert m.Keys == (m.Keys - {k}) + {k};
  }

  function OnlyKey<V>(m: map<string, V>): (k: string)
    requires |m| == 1
    ensures m.Keys == {k}
  {
    SingletonKeys(m);
    var k :| k in m.Keys;
    k
  }

  // ---------------------------------------------------------------- acceptance order

  /** The stored sequence number, or one past the largest order of a legacy auction. */
  function NextBidSequence(auction: Auction): int
  {
    if auction.nextBidSequence > 0 then auction.nextBidSequence
    else if auction.bids == map[] then 1
    else
      var orders := set k | k in auction.bids :: auction.bids[k].acceptanceOrder;
      assert orders != {} by {
        var k :| k in auction.bids;
        assert auction.bids[k].acceptanceOrder in orders;
      }
      Largest(orders) + 1
  }

  lemma SomeMember(s: set<int>) returns (m: int)
    requires s != {}
    ensures m in s
  {
    assert (forall x :: x !in s) ==> s == {};
    m :| m in s;
  }

  lemma {:induction false} LargestExists(s: set<int>)
    requires s != {}
    ensures exists m :: m in s && forall x :: x in s ==> x <= m
    decreases |s|
  {
    var m := SomeMember(s);
    var rest := s - {m};
    if rest == {} {
      assert forall x :: x in s ==> x == m || x in rest;
    } else {
      LargestExists(rest);
      var n :| n in rest && forall x :: x in rest ==> x <= n;
      var top := if m <= n then n else m;
      forall x | x in s ensures x <= top {
        assert x == m || x in rest;
      }
    }
  }

  function Largest(s: set<int>): (m: int)
    requires s != {}
    ensures m in s && forall x :: x in s ==> x <= m
  {
    LargestExists(s);
    var m :| m in s && forall x :: x in s ==> x <= m;
    m
  }

  /** Positive acceptance orders are distinct and below the stored sequence number. */
  predicate AcceptanceOrderValid(auction: Auction)
  {
    && (forall j, k | j in auction.bids && k in auction.bids && j != k ::
          auction.bids[j].acceptanceOrder > 0 ==>
            auction.bids[j].acceptanceOrder != auction.bids[k].acceptanceOrder)
    && (forall k | k in auction.bids ::
          auction.nextBidSequence > 0 && auction.bids[k].acceptanceOrder > 0 ==>
            auction.bids[k].acceptanceOrder < auction.nextBidSequence)
  }

  // ---------------------------------------------------------------- result

  /** The sort key of the result calculation: larger amount, then earlier order, then bidder id. */
  predicate Ranks(j: string, first: ActiveBid, k: string, second: ActiveBid)
  {
    || first.amount > second.amount
    || (first.amount == second.amount
        && (|| first.acceptanceOrder < second.acceptanceOrder
            || (first.acceptanceOrder == second.acceptanceOrder && Leq(j, k))))
  }

  predicate Tops(bids: map<string, ActiveBid>, winner: string)
  {
    winner in bids && forall k :: k in bids ==> Ranks(winner, bids[winner], k, bids[k])
  }

  lemma RanksTotal(j: string, a: ActiveBid, k: string, b: ActiveBid)
    ensures Ranks(j, a, k, b) || Ranks(k, b, j, a)
  {
    LeqTotal(j, k);
  }

  lemma RanksTransitive(i: string, a: ActiveBid, j: string, b: ActiveBid, k: string, c: ActiveBid)
    requires Ranks(i, a, j, b) && Ranks(j, b, k, c)
    ensures Ranks(i, a, k, c)
  {
    if Leq(i, j) && Leq(j, k) {
      LeqTransitive(i, j, k);
    }
  }

  lemma {:induction false} WinnerExists(bids: map<string, ActiveBid>)
    requires bids != map[]
    ensures exists w :: Tops(bids, w)
    decreases |bids|
  {
    var k :| k in bids;
    var rest := bids - {k};
    assert forall j :: j in bids ==> j == k || j in rest;
    if rest == map[] {
      LeqTotal(k, k);
      assert Tops(bids, k);
    } else {
      assert |rest| < |bids| by {
        assert rest.Keys == bids.Keys - {k};
      }
      WinnerExists(rest);
      var w :| Tops(rest, w);
      RanksTotal(k, bids[k], w, bids[w]);
      RanksTotal(k, bids[k], k, bids[k]);
      if Ranks(w, bids[w], k, bids[k]) {
        assert Tops(bids, w);
      } else {
        forall j | j in bids ensures Ranks(k, bids[k], j, bids[j]) {
          if j != k {
            RanksTransitive(k, bids[k], w, bids[w], j, bids[j]);
          }
        }
        assert Tops(bids, k);
      }
    }
  }

  lemma WinnerUnique(bids: map<string, ActiveBid>, v: string, w: string)
    requires Tops(bids, v) && Tops(bids, w)
    ensures v == w
  {
    LeqAntisymmetric(v, w);
  }

  function WinningBidder(bids: map<string, ActiveBid>): (w: string)
    requires bids != map[]
    ensures Tops(bids, w)
  {
    WinnerExists(bids);
    assert forall v, w :: Tops(bids, v) && Tops(bids, w) ==> v == w by {
      forall v, w | Tops(bids, v) && Tops(bids, w) ensures v == w {
        WinnerUnique(bids, v, w);
      }
    }
    var w :| w in bids && Tops(bids, w);
    w
  }

  /** The source raises on an invalid acceptance order; every caller has checked it before. */
  function BuildResult(auction: Auction): AuctionResult
    requires AcceptanceOrderValid(auction)
  {
    if auction.bids == map[] then AuctionResult(NoBids, false, false, None, None)
    else
      var winner := WinningBidder(auction.bids);
      var amount := auction.bids[winner].amount;
      if amount < auction.reservePrice then AuctionResult(ReserveNotMet, false, false, None, None)
      else AuctionResult(SuccessfulSale, true, true, Some(winner), Some(amount))
  }

  /** The winner as one pass over the bids in whatever order they are listed. */
  method SelectWinner(items: seq<(string, ActiveBid)>, bids: map<string, ActiveBid>) returns (winner: string)
    requires items != []
    requires forall item :: item in items ==> item.0 in bids && bids[item.0] == item.1
    requires forall k :: k in bids ==> (k, bids[k]) in items
    ensures bids != map[] && winner == WinningBidder(bids)
  {
    var best := items[0];
    LeqTotal(best.0, best.0);
    for i := 1 to |items|
      invariant best in items[..i]
      invariant forall j :: 0 <= j < i ==> Ranks(best.0, best.1, items[j].0, items[j].1)
    {
      var item := items[i];
      LeqTotal(item.0, item.0);
      if !Ranks(best.0, best.1, item.0, item.1) {
        forall j | 0 <= j < i ensures Ranks(item.0, item.1, items[j].0, items[j].1) {
          RanksTotal(best.0, best.1, item.0, item.1);
          RanksTransitive(item.0, item.1, best.0, best.1, items[j].0, items[j].1);
        }
        best := item;
      }
    }
    winner := best.0;
    assert best in items;
    forall k | k in bids ensures Ranks(winner, bids[winner], k, bids[k]) {
      assert (k, bids[k]) in items;
    }
    WinnerUnique(bids, winner, WinningBidder(bids));
  }

  // ---------------------------------------------------------------- committed state

  /** What the backup, the loader and the full-state installer demand of an auction. */
  predicate CommittedStateValid(auction: Auction)
  {
    && AcceptanceOrderValid(auction)
    && (if auction.state != Revealed then auction.result.None?
        else auction.result == Some(BuildResult(auction)))
  }
}
