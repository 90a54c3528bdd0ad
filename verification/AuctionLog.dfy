/** A stored auction is the outcome of a plain log of accepted operations. */
module AuctionLog {
  import opened Text
  import opened AuctionDomain

  datatype Entry = Opened | Bid(bidder: string, amount: real) | Withdrawn(bidder: string) | Fell

  function Last(log: seq<Entry>): Entry
    requires log != []
  {
    log[|log| - 1]
  }

  function Front(log: seq<Entry>): seq<Entry>
    requires log != []
  {
    log[..|log| - 1]
  }

  function BidCount(log: seq<Entry>): nat
  {
    if log == [] then 0 else BidCount(Front(log)) + (if Last(log).Bid? then 1 else 0)
  }

  predicate Concerns(entry: Entry, bidder: string)
  {
    (entry.Bid? || entry.Withdrawn?) && entry.bidder == bidder
  }

  /** The bid a bidder stands by after the log, ranked by how many bids were accepted up to it. */
  function Standing(log: seq<Entry>, bidder: string): Option<ActiveBid>
  {
    if log == [] then None
    else if !Concerns(Last(log), bidder) then Standing(Front(log), bidder)
    else if Last(log).Bid? then Some(ActiveBid(Last(log).amount, BidCount(log)))
    else None
  }

  /** Opening comes first, nothing follows the reveal, and a bidder's amounts rise between withdrawals. */
  predicate Legal(log: seq<Entry>)
  {
    if |log| <= 1 then log == [Opened]
    else
      && Legal(Front(log))
      && Last(Front(log)) != Fell
      && match Last(log)
         case Opened => false
         case Fell => true
         case Withdrawn(bidder) => Standing(Front(log), bidder).Some?
         case Bid(bidder, amount) =>
           && amount > 0.0
           && (Standing(Front(log), bidder).Some? ==> Standing(Front(log), bidder).value.amount < amount)
  }

  ghost predicate Refines(auction: Auction, log: seq<Entry>)
  {
    && Legal(log)
    && auction.version == |log|
    && auction.nextBidSequence == BidCount(log) + 1
    && (forall k: string :: Lookup(auction.bids, k) == Standing(log, k))
    && auction.state == (if Last(log) == Fell then Revealed else Open)
    && AcceptanceOrderValid(auction)
    && auction.result == (if Last(log) == Fell then Some(BuildResult(auction)) else None)
  }

  ghost predicate Reachable(auction: Auction)
  {
    exists log :: Refines(auction, log)
  }

  // ---------------------------------------------------------------- the log determines the orders

  lemma {:induction false} StandingOrder(log: seq<Entry>, k: string)
    requires Standing(log, k).Some?
    ensures 1 <= Standing(log, k).value.acceptanceOrder <= BidCount(log)
  {
    if !Concerns(Last(log), k) {
      StandingOrder(Front(log), k);
    }
  }

  lemma {:induction false} StandingDistinct(log: seq<Entry>, j: string, k: string)
    requires j != k && Standing(log, j).Some? && Standing(log, k).Some?
    ensures Standing(log, j).value.acceptanceOrder != Standing(log, k).value.acceptanceOrder
  {
    if Concerns(Last(log), j) {
      StandingOrder(Front(log), k);
    } else if Concerns(Last(log), k) {
      StandingOrder(Front(log), j);
    } else {
      StandingDistinct(Front(log), j, k);
    }
  }

  ghost predicate LatestBid(log: seq<Entry>, k: string, i: nat, bid: ActiveBid)
  {
    && i < |log|
    && log[i] == Bid(k, bid.amount)
    && BidCount(log[..i + 1]) == bid.acceptanceOrder
    && forall j :: i < j < |log| ==> !Concerns(log[j], k)
  }

  /** A bidder stands by a bid exactly when it is that bidder's last entry, and its order is its ordinal. */
  lemma {:induction false} StandingIsLatestBid(log: seq<Entry>, k: string, bid: ActiveBid)
    ensures Standing(log, k) == Some(bid) <==> exists i :: LatestBid(log, k, i, bid)
  {
    if log != [] {
      var n := |log| - 1;
      if Concerns(Last(log), k) {
        assert log[..n + 1] == log;
        if Standing(log, k) == Some(bid) {
          assert LatestBid(log, k, n, bid);
        }
        forall i: nat | LatestBid(log, k, i, bid) ensures i == n {
          assert !(i < n < |log|);
        }
      } else {
        StandingIsLatestBid(Front(log), k, bid);
        forall i | 0 <= i < n ensures LatestBid(Front(log), k, i, bid) <==> LatestBid(log, k, i, bid) {
          assert Front(log)[..i + 1] == log[..i + 1];
        }
        if Standing(log, k) == Some(bid) {
          var i :| LatestBid(Front(log), k, i, bid);
          assert LatestBid(log, k, i, bid);
        }
        if i :| LatestBid(log, k, i, bid) {
          assert LatestBid(Front(log), k, i, bid);
        }
      }
    }
  }

  predicate NoWithdrawalAfter(log: seq<Entry>, k: string, i: nat)
  {
    forall j :: i < j < |log| ==> log[j] != Withdrawn(k)
  }

  /** A bid that was not withdrawn since is still stood by, or has been topped. */
  lemma {:induction false} StandsAbove(log: seq<Entry>, k: string, i: nat)
    requires Legal(log) && i < |log| && log[i].Bid? && log[i].bidder == k && NoWithdrawalAfter(log, k, i)
    ensures Standing(log, k).Some? && Standing(log, k).value.amount >= log[i].amount
  {
    if i < |log| - 1 {
      assert Front(log)[i] == log[i];
      StandsAbove(Front(log), k, i);
    }
  }

  /** A bidder's amounts strictly rise from bid to bid until a withdrawal. */
  lemma {:induction false} AmountsRise(log: seq<Entry>, k: string, i: nat, j: nat)
    requires Legal(log) && i < j < |log| && NoWithdrawalAfter(log[..j], k, i)
    requires log[i].Bid? && log[i].bidder == k && log[j].Bid? && log[j].bidder == k
    ensures log[i].amount < log[j].amount
    decreases |log|
  {
    if j == |log| - 1 {
      StandsAbove(Front(log), k, i);
    } else {
      assert Front(log)[..j] == log[..j];
      AmountsRise(Front(log), k, i, j);
    }
  }

  lemma StandingOrdersValid(auction: Auction, log: seq<Entry>)
    requires auction.nextBidSequence == BidCount(log) + 1
    requires forall k: string :: Lookup(auction.bids, k) == Standing(log, k)
    ensures AcceptanceOrderValid(auction)
    ensures forall k | k in auction.bids :: 1 <= auction.bids[k].acceptanceOrder
  {
    forall k | k in auction.bids
      ensures 1 <= auction.bids[k].acceptanceOrder < auction.nextBidSequence
    {
      assert Lookup(auction.bids, k) == Standing(log, k);
      StandingOrder(log, k);
    }
    forall j, k | j in auction.bids && k in auction.bids && j != k
      ensures auction.bids[j].acceptanceOrder != auction.bids[k].acceptanceOrder
    {
      assert Lookup(auction.bids, j) == Standing(log, j) && Lookup(auction.bids, k) == Standing(log, k);
      StandingDistinct(log, j, k);
    }
  }

  // ---------------------------------------------------------------- every candidate extends the log

  /** The log entry of an accepted mutation. */
  function EntryOf(request: MutationRequest, kind: MutationType): Entry
  {
    match kind
    case PlaceBid =>
      if |request.auction.bids| == 1 then
        var bidder := OnlyKey(request.auction.bids);
        Bid(bidder, if request.auction.bids[bidder].Finite? then request.auction.bids[bidder].value else 0.0)
      else Bid("", 0.0)
    case WithdrawBid => Withdrawn(Strip(request.bidderId))
    case Reveal => Fell
    case _ => Opened
  }

  lemma CreateStartsLog(request: MutationRequest, kind: MutationType, now: real)
    requires BuildCandidate(request, kind, None, now).Candidate?
    ensures kind == Create
    ensures Refines(BuildCandidate(request, kind, None, now).auction, [EntryOf(request, kind)])
  {
  }

  lemma BidExtendsLog(request: MutationRequest, current: Auction, now: real, log: seq<Entry>)
    requires Refines(current, log) && Last(log) != Fell
    requires BuildBidCandidate(request, current, now).Candidate?
    ensures Refines(BuildBidCandidate(request, current, now).auction, log + [EntryOf(request, PlaceBid)])
  {
  }

  lemma WithdrawExtendsLog(request: MutationRequest, current: Auction, now: real, log: seq<Entry>)
    requires Refines(current, log) && Last(log) != Fell
    requires BuildWithdrawCandidate(request, current, now).Candidate?
    ensures Refines(BuildWithdrawCandidate(request, current, now).auction, log + [EntryOf(request, WithdrawBid)])
  {
  }

  lemma RevealExtendsLog(current: Auction, log: seq<Entry>)
    requires Refines(current, log) && Last(log) != Fell
    ensures Refines(BuildRevealCandidate(current), log + [Fell])
  {
  }

  /** A candidate of a reachable auction is reachable by exactly one more log entry. */
  lemma CandidateExtendsLog(request: MutationRequest, kind: MutationType, current: Auction, now: real, log: seq<Entry>)
    requires Refines(current, log)
    requires BuildCandidate(request, kind, Some(current), now).Candidate?
    ensures Refines(BuildCandidate(request, kind, Some(current), now).auction, log + [EntryOf(request, kind)])
    ensures BuildCandidate(request, kind, Some(current), now).auction.auctionId == current.auctionId
  {
    match kind
    case PlaceBid => BidExtendsLog(request, current, now, log);
    case WithdrawBid => WithdrawExtendsLog(request, current, now, log);
    case Reveal => RevealExtendsLog(current, log);
    case _ =>
  }

  /** The version of a candidate follows the stored one and the candidate stays reachable. */
  lemma CandidateReachable(request: MutationRequest, kind: MutationType, existing: Option<Auction>, now: real)
    requires existing.Some? ==> Reachable(existing.value)
    requires BuildCandidate(request, kind, existing, now).Candidate?
    ensures var candidate := BuildCandidate(request, kind, existing, now).auction;
      && Reachable(candidate)
      && candidate.version == (if existing.Some? then existing.value.version + 1 else 1)
      && candidate.auctionId == (if existing.Some? then existing.value.auctionId else request.auction.auctionId)
      && (existing.None? ==> !Blank(candidate.auctionId))
  {
    if existing.None? {
      CreateStartsLog(request, kind, now);
    } else {
      var log :| Refines(existing.value, log);
      CandidateExtendsLog(request, kind, existing.value, now, log);
    }
  }

  /** What the primary builds, the backup's check accepts. */
  lemma ReachablePassesCheck(auction: Auction)
    requires Reachable(auction)
    ensures CommittedStateValid(auction) && auction.version >= 1
  {
  }

  // ---------------------------------------------------------------- the result

  ghost predicate Wins(bids: map<string, ActiveBid>, w: string)
  {
    && w in bids
    && forall k :: k in bids && k != w ==>
         || bids[k].amount < bids[w].amount
         || (bids[k].amount == bids[w].amount && bids[w].acceptanceOrder < bids[k].acceptanceOrder)
  }

  /** On reachable auctions amount and acceptance order alone decide; the bidder id never does. */
  lemma ResultCharacterized(auction: Auction, w: string)
    requires Reachable(auction)
    ensures var result := BuildResult(auction);
      && (result.outcome == NoBids <==> auction.bids == map[])
      && (result.hasWinner <==> exists k :: k in auction.bids && auction.bids[k].amount >= auction.reservePrice)
      && (result.hasWinner <==> result.outcome == SuccessfulSale)
      && (result.hasWinner ==>
            (result.winningBidder == Some(w) <==> Wins(auction.bids, w))
            && (Wins(auction.bids, w) ==> result.winningAmount == Some(auction.bids[w].amount)))
  {
    var bids := auction.bids;
    if bids != map[] {
      var top := WinningBidder(bids);
      assert forall k :: k in bids ==> bids[k].amount <= bids[top].amount by {
        assert forall k :: k in bids ==> Ranks(top, bids[top], k, bids[k]);
      }
      var log :| Refines(auction, log);
      StandingOrdersValid(auction, log);
      assert Wins(bids, top);
    }
  }

  /** The reveal is final: no request of any kind yields a candidate afterwards. */
  lemma RevealIsFinal(request: MutationRequest, kind: MutationType, auction: Auction, now: real)
    requires auction.state == Revealed
    ensures BuildCandidate(request, kind, Some(auction), now) == Rejected(InvalidState, auction.version)
  {
  }

  /** An open auction can be revealed by some request exactly when its stored seller id is trimmed. */
  lemma RevealableIffSellerTrimmed(auction: Auction, now: real)
    requires Reachable(auction) && auction.state != Revealed
    ensures Trimmed(auction.sellerId) <==>
      exists request: MutationRequest :: BuildCandidate(request, Reveal, Some(auction), now).Candidate?
  {
    var blank := RequestedAuction("", auction.sellerId, "", "", "", Finite(0.0), map[], Open, 0, None, false);
    var request := MutationRequest(Reveal, blank, "", auction.version, "", 0);
    if Trimmed(auction.sellerId) {
      assert BuildCandidate(request, Reveal, Some(auction), now).Candidate?;
    }
    if other: MutationRequest :| BuildCandidate(other, Reveal, Some(auction), now).Candidate? {
      StripIsTrimmed(other.auction.sellerId);
    }
  }
}
