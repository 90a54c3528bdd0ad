/** Concrete runs, open to the programs, in which a hypothesis fails and with it what rests on it. */
module LosingRuns {
  import opened Text
  import opened AuctionDomain
  import opened Replica
  import opened LocalInvariant
  import opened Cluster
  import opened ClusterInvariant

  function Fresh(address: string, role: Role, ready: bool, backup: string): State
  {
    State(address, role, map[], map[], map[], map[], map[], 1, ready, backup, ready)
  }

  /** A serving pair "p" and "x" with two idle replicas beside it. */
  function FourNodes(): World
  {
    World(
      map["p" := Fresh("p", Primary, true, "x"), "x" := Fresh("x", Backup, false, ""),
          "t" := Fresh("t", Backup, false, ""), "u" := Fresh("u", Backup, false, "")],
      map[], Config("p", "x", 1, Ready), map[], {}, {}, {})
  }

  lemma PlainIds()
    ensures Strip("a") == "a" && Strip("s") == "s" && Strip("p") == "p" && Strip("r") == "r" && Strip("x") == "x"
    ensures Strip("t") == "t" && Strip("u") == "u" && Strip("r ") == "r" && Strip("a ") == "a" && Strip("") == ""
  {
    assert "r "[..1] == "r" && "a "[..1] == "a";
  }

  lemma FourNodesInitial()
    ensures Initial(FourNodes())
  {
    PlainIds();
  }

  function Creation(id: string, auctionId: string): MutationRequest
  {
    MutationRequest(
      Create,
      RequestedAuction(auctionId, "s", "", "", "", Finite(1.0), map[], Open, 0, Some(Timestamp(10, 0)), false),
      "", 0, id, 1)
  }

  function Created(auctionId: string): Auction
  {
    Auction(auctionId, "s", "", "", "", 1.0, map[], Open, 1, Some(Timestamp(10, 0)), 1, None)
  }

  function Receipt(id: string, auctionId: string): Record
  {
    Record(id, FingerprintOf(Creation(id, auctionId), Create), Response(true, 1, NoFailure, auctionId, false))
  }

  function Proposal(id: string, auctionId: string, stage: Stage): Op
  {
    Op(id, Created(auctionId), Receipt(id, auctionId), 0, stage, false)
  }

  function Staged(x: State, id: string, auctionId: string): State
  {
    x.(prepared := map[id := Prepare(id, Created(auctionId), Receipt(id, auctionId), "p", 1)])
  }

  /** The primary "p" with backup `b` after deciding the creation, before or after its acknowledgement. */
  function Decided(b: string, id: string, auctionId: string, waiting: bool): State
  {
    var decision := CommitDecision(id, Created(auctionId), Receipt(id, auctionId), "p", b, 1);
    Fresh("p", Primary, true, b).(
      auctions := map[auctionId := Created(auctionId)], records := map[id := Receipt(id, auctionId)],
      pending := if waiting then map[id := decision] else map[])
  }

  predicate Empty(x: State)
  {
    && x.role == Backup && x.epoch == 1 && x.auctions == map[] && x.records == map[]
    && x.prepared == map[] && x.aborted == map[]
  }

  /** The primary serves with an empty backup and has nothing in flight. */
  predicate Serving(w: World, b: string)
  {
    && "p" in w.replicas && w.replicas["p"] == Fresh("p", Primary, true, b) && "p" !in w.ops
    && b in w.replicas && b != "p" && b != "" && Empty(w.replicas[b])
  }

  // ---------------------------------------------------------------- a creation, step by step

  function Submitted(w: World, id: string, auctionId: string): World
  {
    w.(ops := w.ops["p" := Proposal(id, auctionId, Preparing)])
  }

  function Acknowledged(w: World, b: string, id: string, auctionId: string): World
    requires b in w.replicas
  {
    w.(replicas := w.replicas[b := Staged(w.replicas[b], id, auctionId)],
       ops := w.ops["p" := Proposal(id, auctionId, Prepared)])
  }

  function Recorded(w: World, b: string, id: string, auctionId: string): World
    requires b in w.replicas
  {
    w.(replicas := w.replicas[b := Staged(w.replicas[b], id, auctionId)]["p" := Decided(b, id, auctionId, true)],
       ops := w.ops["p" := Proposal(id, auctionId, Completing)])
  }

  function Committed(w: World, b: string, id: string, auctionId: string): World
    requires b in w.replicas
  {
    var x := w.replicas[b].(
      auctions := map[auctionId := Created(auctionId)], records := map[id := Receipt(id, auctionId)]);
    w.(replicas := w.replicas[b := x]["p" := Decided(b, id, auctionId, false)],
       acked := w.acked[id := Receipt(id, auctionId)])
  }

  lemma CreationSubmitted(w: World, b: string, id: string, auctionId: string)
    requires Serving(w, b) && Id(id) && !Blank(auctionId)
    ensures Step(w, Submit("p", Creation(id, auctionId), 0.0), Submitted(w, id, auctionId))
  {
    PlainIds();
  }

  lemma CreationPrepared(w: World, b: string, id: string, auctionId: string)
    requires Serving(w, b) && Id(id) && !Blank(auctionId)
    ensures Step(Submitted(w, id, auctionId), SendPrepare("p", Delivered(true, true)),
        Acknowledged(w, b, id, auctionId))
  {
    PlainIds();
    var m := Prepare(id, Created(auctionId), Receipt(id, auctionId), "p", 1);
    assert OnPrepare(w.replicas[b], m, true) == (Staged(w.replicas[b], id, auctionId), PrepareReply(true, 1));
  }

  lemma CreationRecorded(w: World, b: string, id: string, auctionId: string)
    requires Serving(w, b) && Id(id) && !Blank(auctionId)
    ensures Step(Acknowledged(w, b, id, auctionId), Decide("p", true), Recorded(w, b, id, auctionId))
  {
    PlainIds();
    assert RecordDecision(Fresh("p", Primary, true, b), id, Created(auctionId), Receipt(id, auctionId), true)
        == (Decided(b, id, auctionId, true), true);
  }

  lemma CommitTaken(x: State, b: string, id: string, auctionId: string)
    requires Empty(x) && Id(id) && Id(auctionId) && b != ""
    ensures var (q, x', done) :=
        CommitExchange(Decided(b, id, auctionId, true), Staged(x, id, auctionId), id, Delivered(true, true), true);
      && q == Decided(b, id, auctionId, false) && done
      && x' == x.(auctions := map[auctionId := Created(auctionId)], records := map[id := Receipt(id, auctionId)])
  {
    PlainIds();
    var held := Staged(x, id, auctionId);
    var x' := OnCommit(held, CommitMessage(Decided(b, id, auctionId, true).pending[id]), true).0;
    assert x'.prepared == map[];
    assert x'.auctions == map[auctionId := Created(auctionId)] && x'.records == map[id := Receipt(id, auctionId)];
    assert Decided(b, id, auctionId, true).pending - {id} == map[];
  }

  lemma CreationCommitted(w: World, b: string, id: string, auctionId: string)
    requires Serving(w, b) && Id(id) && Id(auctionId)
    ensures Step(Recorded(w, b, id, auctionId), SendCommit("p", Delivered(true, true), true),
        Committed(w, b, id, auctionId))
  {
    CommitTaken(w.replicas[b], b, id, auctionId);
    var before := Recorded(w, b, id, auctionId);
    assert CommitReachable(before, "p");
    assert before.ops - {"p"} == w.ops;
    assert Next(before, SendCommit("p", Delivered(true, true), true)).replicas ==
        Committed(w, b, id, auctionId).replicas;
  }

  function DecideEvents(id: string, auctionId: string): seq<Event>
  {
    [Submit("p", Creation(id, auctionId), 0.0)] + [SendPrepare("p", Delivered(true, true))] + [Decide("p", true)]
  }

  function CreateEvents(id: string, auctionId: string): seq<Event>
  {
    DecideEvents(id, auctionId) + [SendCommit("p", Delivered(true, true), true)]
  }

  lemma CreationDecides(w: World, b: string, id: string, auctionId: string)
    requires Serving(w, b) && Id(id) && !Blank(auctionId)
    ensures Wild(w, DecideEvents(id, auctionId), Recorded(w, b, id, auctionId))
  {
    CreationSubmitted(w, b, id, auctionId);
    CreationPrepared(w, b, id, auctionId);
    CreationRecorded(w, b, id, auctionId);
    ThreeSteps(w, Submit("p", Creation(id, auctionId), 0.0), Submitted(w, id, auctionId),
               SendPrepare("p", Delivered(true, true)), Acknowledged(w, b, id, auctionId),
               Decide("p", true), Recorded(w, b, id, auctionId));
  }

  lemma ThreeSteps(w: World, e1: Event, w1: World, e2: Event, w2: World, e3: Event, w3: World)
    requires Step(w, e1, w1) && Step(w1, e2, w2) && Step(w2, e3, w3)
    ensures Wild(w, [e1] + [e2] + [e3], w3)
  {
    WildOne(w, e1);
    WildStep(w, [e1], w1, e2, w2);
    WildStep(w, [e1] + [e2], w2, e3, w3);
  }

  lemma CreationCompletes(w: World, b: string, id: string, auctionId: string)
    requires Serving(w, b) && Id(id) && Id(auctionId)
    ensures Wild(w, CreateEvents(id, auctionId), Committed(w, b, id, auctionId))
  {
    CreationDecides(w, b, id, auctionId);
    CreationCommitted(w, b, id, auctionId);
    WildStep(w, DecideEvents(id, auctionId), Recorded(w, b, id, auctionId),
             SendCommit("p", Delivered(true, true), true), Committed(w, b, id, auctionId));
  }

  // ---------------------------------------------------------------- the steps of an attempt

  const NOTHING := FullState(map[], map[])

  function CopyFor(target: string): Copy
  {
    Copy(target, NOTHING, 1)
  }

  function CallFor(target: string): Completion
  {
    Completion("p", target, 1)
  }

  function Slot(target: string, installed: bool): Mode
  {
    Reprotecting(Some(Sync(target, NOTHING, installed)))
  }

  /** "p" still serves with "x" and has stored nothing. */
  predicate Unwritten(w: World)
  {
    Serving(w, "x") && w.config.primary == "p" && w.config.backup == "x" && w.config.epoch == 1
  }

  function AttemptEvents(target: string): seq<Event>
  {
    [Fetch(target)] + [Install(CopyFor(target), true)] + [Call(target)]
  }

  /** The world after `target` has fetched, installed and been called for. */
  function Attempted(w: World, target: string): World
    requires target in w.replicas
  {
    w.(replicas := w.replicas[target := w.replicas[target].(pending := map[], ready := false, reported := false)],
       config := w.config.(mode := Slot(target, true)),
       copies := w.copies + {CopyFor(target)}, calls := w.calls + {CallFor(target)})
  }

  lemma AttemptRuns(w: World, target: string)
    requires Unwritten(w) && w.config.mode.Reprotecting? && target in w.replicas && target != "p"
        && Empty(w.replicas[target])
    ensures Wild(w, AttemptEvents(target), Attempted(w, target))
  {
    var fetched := w.(config := w.config.(mode := Slot(target, false)), copies := w.copies + {CopyFor(target)});
    var t := w.replicas[target].(pending := map[], ready := false, reported := false);
    var installed := fetched.(replicas := w.replicas[target := t], config := w.config.(mode := Slot(target, true)));
    assert Step(w, Fetch(target), fetched);
    assert OnInstall(w.replicas[target], NOTHING, 1, true) == (t, true);
    assert Step(fetched, Install(CopyFor(target), true), installed);
    assert Step(installed, Call(target), Attempted(w, target));
    ThreeSteps(w, Fetch(target), fetched, Install(CopyFor(target), true), installed, Call(target),
        Attempted(w, target));
  }

  function Opened(): World
  {
    FourNodes().(config := Config("p", "x", 1, Reprotecting(None)))
  }

  lemma Opens()
    ensures Wild(FourNodes(), [StartReprotection], Opened()) && Unwritten(Opened())
  {
    WildOne(FourNodes(), StartReprotection);
  }

  lemma Completes(w: World, target: string)
    requires "p" in w.replicas && w.replicas["p"].role == Primary && w.replicas["p"].epoch == 1
    requires w.replicas["p"].ready && w.replicas["p"].address == "p" && "p" !in w.ops
    requires CallFor(target) in w.calls && Id(target) && target != "p" && w.replicas["p"].backup != target
    ensures var p := w.replicas["p"].(backup := target, reported := true);
      Step(w, TakeComplete(CallFor(target), true),
           WithReplica(w, "p", p).(
             config := if CurrentCall(w.config, CallFor(target)) then Config("p", target, 1, Ready) else w.config))
  {
    var p := w.replicas["p"].(backup := target, reported := true);
    assert OnComplete(w.replicas["p"], 1, target, true) == (p, true);
  }

  // ---------------------------------------------------------------- the losing runs

  function WindowEvents(): seq<Event>
  {
    [StartReprotection] + AttemptEvents("t") + CreateEvents("r", "a") + [TakeComplete(CallFor("t"), true)]
  }

  /** A write the old backup acknowledges between the fetch and the completion of a reprotection is lost. */
  lemma WindowLosesAcknowledgedWrite() returns (w: World)
    ensures Initial(FourNodes()) && Wild(FourNodes(), WindowEvents(), w)
    ensures w.config == Config("p", "t", 1, Ready)
    ensures "r" in w.acked && w.config.backup in w.replicas && "r" !in w.replicas[w.config.backup].records
  {
    PlainIds();
    FourNodesInitial();
    Opens();
    AttemptRuns(Opened(), "t");
    var attempted := Attempted(Opened(), "t");
    WildAppend(FourNodes(), [StartReprotection], Opened(), AttemptEvents("t"), attempted);
    CreationCompletes(attempted, "x", "r", "a");
    var written := Committed(attempted, "x", "r", "a");
    WildAppend(FourNodes(), [StartReprotection] + AttemptEvents("t"), attempted, CreateEvents("r", "a"), written);
    Completes(written, "t");
    w := Next(written, TakeComplete(CallFor("t"), true));
    WildStep(FourNodes(), [StartReprotection] + AttemptEvents("t") + CreateEvents("r", "a"), written,
             TakeComplete(CallFor("t"), true), w);
  }

  function OvertakingEvents(): seq<Event>
  {
    [StartReprotection] + AttemptEvents("t") + AttemptEvents("u")
    + [TakeComplete(CallFor("u"), true)] + [TakeComplete(CallFor("t"), true)]
  }

  lemma Overtakes() returns (w: World)
    ensures Wild(FourNodes(), OvertakingEvents(), w)
    ensures w.config == Config("p", "u", 1, Ready) && Serving(w, "t")
    ensures "u" in w.replicas && w.replicas["u"].records == map[]
  {
    PlainIds();
    Opens();
    AttemptRuns(Opened(), "t");
    var one := Attempted(Opened(), "t");
    WildAppend(FourNodes(), [StartReprotection], Opened(), AttemptEvents("t"), one);
    AttemptRuns(one, "u");
    var two := Attempted(one, "u");
    WildAppend(FourNodes(), [StartReprotection] + AttemptEvents("t"), one, AttemptEvents("u"), two);
    w := BothComplete(two, [StartReprotection] + AttemptEvents("t") + AttemptEvents("u"));
  }

  lemma BothComplete(two: World, events: seq<Event>) returns (w: World)
    requires Wild(FourNodes(), events, two) && two == Attempted(Attempted(Opened(), "t"), "u")
    ensures Wild(FourNodes(), events + [TakeComplete(CallFor("u"), true)] + [TakeComplete(CallFor("t"), true)], w)
    ensures w.config == Config("p", "u", 1, Ready) && Serving(w, "t")
    ensures "u" in w.replicas && w.replicas["u"].records == map[]
  {
    PlainIds();
    Completes(two, "u");
    var current := Next(two, TakeComplete(CallFor("u"), true));
    WildStep(FourNodes(), events, two, TakeComplete(CallFor("u"), true), current);
    Completes(current, "t");
    w := Next(current, TakeComplete(CallFor("t"), true));
    WildStep(FourNodes(), events + [TakeComplete(CallFor("u"), true)], current, TakeComplete(CallFor("t"), true), w);
  }

  /**
   * The completion of a first attempt takes effect after that of a second one: the pair the controller activated is
   * "p" and "u", the primary writes through "t", and a write it acknowledges is missing from "u".
   */
  lemma OvertakenCompletionLosesAcknowledgedWrite() returns (w: World)
    ensures Initial(FourNodes()) && Wild(FourNodes(), OvertakingEvents() + CreateEvents("r", "a"), w)
    ensures w.config == Config("p", "u", 1, Ready)
    ensures "r" in w.acked && w.config.backup in w.replicas && "r" !in w.replicas[w.config.backup].records
  {
    PlainIds();
    FourNodesInitial();
    var served := Overtakes();
    CreationCompletes(served, "t", "r", "a");
    w := Committed(served, "t", "r", "a");
    WildAppend(FourNodes(), OvertakingEvents(), served, CreateEvents("r", "a"), w);
  }

  function LateInstallEvents(): seq<Event>
  {
    [FetchAside("p", "x")] + CreateEvents("r", "a") + [Install(CopyFor("x"), true)]
  }

  lemma InstalledLate(w: World)
    requires "x" in w.replicas && w.replicas["x"].role == Backup && w.replicas["x"].epoch == 1
    requires CopyFor("x") in w.copies && w.config.mode.Ready?
    ensures Allowed(w, Install(CopyFor("x"), true))
    ensures var w' := Next(w, Install(CopyFor("x"), true));
      w'.config == w.config && w'.acked == w.acked && "x" in w'.replicas && w'.replicas["x"].records == map[]
  {
  }

  /** A state the backup read before a write and installs after it wipes the write out. */
  lemma LateInstallationLosesAcknowledgedWrite() returns (w: World)
    ensures Initial(FourNodes()) && Wild(FourNodes(), LateInstallEvents(), w)
    ensures w.config == Config("p", "x", 1, Ready)
    ensures "r" in w.acked && w.config.backup in w.replicas && "r" !in w.replicas[w.config.backup].records
  {
    PlainIds();
    FourNodesInitial();
    var fetched := FourNodes().(copies := {CopyFor("x")});
    assert Step(FourNodes(), FetchAside("p", "x"), fetched);
    WildOne(FourNodes(), FetchAside("p", "x"));
    CreationCompletes(fetched, "x", "r", "a");
    var written := Committed(fetched, "x", "r", "a");
    WildAppend(FourNodes(), [FetchAside("p", "x")], fetched, CreateEvents("r", "a"), written);
    InstalledLate(written);
    w := Next(written, Install(CopyFor("x"), true));
    WildStep(FourNodes(), [FetchAside("p", "x")] + CreateEvents("r", "a"), written, Install(CopyFor("x"), true), w);
  }

  // ---------------------------------------------------------------- a delayed abort

  const ABORT := Mail("x", Cancellation(Decision("r", "a", "p", 1)))

  function Failing(mail: set<Mail>): World
  {
    FourNodes().(ops := map["p" := Proposal("r", "a", Aborting)], mail := mail)
  }

  function GivenUpEvents(): seq<Event>
  {
    [Submit("p", Creation("r", "a"), 0.0)] + [SendPrepare("p", Lost)] + [Delay("p")] + [SendAbort("p", Lost)]
  }

  lemma PrepareLost()
    ensures Step(Submitted(FourNodes(), "r", "a"), SendPrepare("p", Lost), Failing({}))
  {
    var submitted := Submitted(FourNodes(), "r", "a");
    assert submitted.replicas["x" := submitted.replicas["x"]] == submitted.replicas;
  }

  lemma AbortDelayed()
    ensures Step(Failing({}), Delay("p"), Failing({ABORT}))
    ensures Step(Failing({ABORT}), SendAbort("p", Lost), FourNodes().(mail := {ABORT}))
  {
    assert Failing({ABORT}).ops - {"p"} == map[];
  }

  /** The prepare of a first attempt is lost and its abort is delayed: nothing happened yet. */
  lemma AttemptGivenUp()
    ensures Wild(FourNodes(), GivenUpEvents(), FourNodes().(mail := {ABORT}))
  {
    PlainIds();
    CreationSubmitted(FourNodes(), "x", "r", "a");
    PrepareLost();
    AbortDelayed();
    ThreeSteps(FourNodes(), Submit("p", Creation("r", "a"), 0.0), Submitted(FourNodes(), "r", "a"),
               SendPrepare("p", Lost), Failing({}), Delay("p"), Failing({ABORT}));
    WildStep(FourNodes(), [Submit("p", Creation("r", "a"), 0.0)] + [SendPrepare("p", Lost)] + [Delay("p")],
             Failing({ABORT}), SendAbort("p", Lost), FourNodes().(mail := {ABORT}));
  }

  /**
   * The abort of a first attempt reaches the backup after a second attempt at the same request was decided: the
   * request is tombstoned, and from then on the backup refuses its commit.
   */
  lemma DelayedAbortDestroysDecision() returns (w: World)
    ensures Initial(FourNodes()) && Wild(FourNodes(), GivenUpEvents() + DecideEvents("r", "a") + [Late(ABORT, true)], w)
    ensures {"p", "x"} <= w.replicas.Keys
    ensures "r" in w.replicas["p"].records && "r" in w.replicas["p"].pending && "r" in w.replicas["x"].aborted
    ensures forall saved :: !OnCommit(w.replicas["x"], CommitMessage(w.replicas["p"].pending["r"]), saved).1.success
  {
    PlainIds();
    FourNodesInitial();
    AttemptGivenUp();
    var waiting := FourNodes().(mail := {ABORT});
    CreationDecides(waiting, "x", "r", "a");
    var decided := Recorded(waiting, "x", "r", "a");
    WildAppend(FourNodes(), GivenUpEvents(), waiting, DecideEvents("r", "a"), decided);
    assert ABORT in decided.mail;
    w := Next(decided, Late(ABORT, true));
    WildStep(FourNodes(), GivenUpEvents() + DecideEvents("r", "a"), decided, Late(ABORT, true), w);
  }

  // ---------------------------------------------------------------- untrimmed identifiers

  lemma RefusedForEver(x: State, saved: bool)
    requires Empty(x)
    ensures var m := CommitMessage(Decided("x", "r", "a ", true).pending["r"]);
      OnCommit(Staged(x, "r", "a "), m, saved) == (Staged(x, "r", "a "), DecisionReply(false, 0))
  {
    PlainIds();
  }

  /** A creation under an untrimmed auction id is decided, and no delivery of its commit is ever accepted. */
  lemma UntrimmedAuctionIdNeverCommits() returns (w: World)
    ensures Initial(FourNodes()) && Wild(FourNodes(), DecideEvents("r", "a "), w)
    ensures "p" in w.replicas && "x" in w.replicas && "a " in w.replicas["p"].auctions && "r" in w.replicas["p"].pending
    ensures forall saved ::
      var (x, reply) := OnCommit(w.replicas["x"], CommitMessage(w.replicas["p"].pending["r"]), saved);
      x == w.replicas["x"] && !reply.success
  {
    PlainIds();
    FourNodesInitial();
    CreationDecides(FourNodes(), "x", "r", "a ");
    w := Recorded(FourNodes(), "x", "r", "a ");
    forall saved ensures OnCommit(w.replicas["x"], CommitMessage(w.replicas["p"].pending["r"]), saved)
                      == (w.replicas["x"], DecisionReply(false, 0)) {
      RefusedForEver(FourNodes().replicas["x"], saved);
    }
  }

  function BidUnder(id: string): MutationRequest
  {
    MutationRequest(
      PlaceBid,
      RequestedAuction("a", "", "", "", "", Finite(0.0), map["b" := Finite(1.0)], Unspecified, 0, None, false),
      "b", 1, id, 1)
  }

  function Bidden(): Auction
  {
    Created("a").(bids := map["b" := ActiveBid(1.0, 1)], nextBidSequence := 2, version := 2)
  }

  function BidReceipt(id: string): Record
  {
    Record(id, BidFingerprint("a", "b", Finite(1.0)), Response(true, 2, NoFailure, "a", false))
  }

  function BidOp(stage: Stage): Op
  {
    Op("r ", Bidden(), BidReceipt("r "), 1, stage, false)
  }

  /** The decided creation whose commit was lost, and the bid's operation on top of it. */
  function Waiting(ops: map<string, Op>): World
  {
    Recorded(FourNodes(), "x", "r", "a").(ops := ops)
  }

  lemma CommitLost()
    ensures Step(Recorded(FourNodes(), "x", "r", "a"), SendCommit("p", Lost, true), Waiting(map[]))
  {
    var before := Recorded(FourNodes(), "x", "r", "a");
    assert before.ops - {"p"} == map[];
    assert before.replicas["x" := before.replicas["x"]]["p" := before.replicas["p"]] == before.replicas;
  }

  lemma BidSubmitted()
    ensures Step(Waiting(map[]), Submit("p", BidUnder("r "), 0.0), Waiting(map["p" := BidOp(Preparing)]))
  {
    PlainIds();
    assert Strip("b") == "b";
    assert "b" in BidUnder("r ").auction.bids.Keys;
    assert OnlyKey(BidUnder("r ").auction.bids) == "b";
    assert StartMutation(Decided("x", "r", "a", true), BidUnder("r "), 0.0) ==
        Propose("r ", Bidden(), BidReceipt("r "), 1);
  }

  lemma BidRefused()
    ensures Step(Waiting(map["p" := BidOp(Preparing)]), SendPrepare("p", Delivered(true, true)),
                 Waiting(map["p" := BidOp(Aborting)]))
  {
    PlainIds();
    var before := Waiting(map["p" := BidOp(Preparing)]);
    assert OnPrepare(before.replicas["x"], Prepare("r ", Bidden(), BidReceipt("r "), "p", 1), true)
        == (before.replicas["x"], PrepareReply(false, 0));
    assert before.replicas["x" := before.replicas["x"]] == before.replicas;
  }

  lemma BidAborts() returns (w: World)
    ensures Step(Waiting(map["p" := BidOp(Aborting)]), SendAbort("p", Delivered(true, true)), w)
    ensures {"p", "x"} <= w.replicas.Keys && w.replicas["p"] == Decided("x", "r", "a", true)
    ensures "r" in w.replicas["x"].aborted && w.replicas["x"].role == Backup && w.replicas["x"].epoch == 1
  {
    PlainIds();
    w := Next(Waiting(map["p" := BidOp(Aborting)]), SendAbort("p", Delivered(true, true)));
  }

  function LookAlikeEvents(): seq<Event>
  {
    DecideEvents("r", "a") + [SendCommit("p", Lost, true)]
    + ([Submit("p", BidUnder("r "), 0.0)] + [SendPrepare("p", Delivered(true, true))]
        + [SendAbort("p", Delivered(true, true))])
  }

  /**
   * The primary takes ids as they come and the backup trims them: while the commit of "r" is outstanding, a
   * second request under "r " is refused and its abort tombstones "r", which the primary has already decided.
   * From then on the backup refuses that commit.
   */
  lemma LookAlikeIdDestroysDecision() returns (w: World)
    ensures Initial(FourNodes()) && Wild(FourNodes(), LookAlikeEvents(), w)
    ensures {"p", "x"} <= w.replicas.Keys
    ensures "r" in w.replicas["p"].records && "r" in w.replicas["p"].pending && "r" in w.replicas["x"].aborted
    ensures forall saved :: !OnCommit(w.replicas["x"], CommitMessage(w.replicas["p"].pending["r"]), saved).1.success
  {
    PlainIds();
    FourNodesInitial();
    CreationDecides(FourNodes(), "x", "r", "a");
    CommitLost();
    WildStep(FourNodes(), DecideEvents("r", "a"), Recorded(FourNodes(), "x", "r", "a"), SendCommit("p", Lost, true),
        Waiting(map[]));
    BidSubmitted();
    BidRefused();
    w := BidAborts();
    ThreeSteps(Waiting(map[]), Submit("p", BidUnder("r "), 0.0), Waiting(map["p" := BidOp(Preparing)]),
               SendPrepare("p", Delivered(true, true)), Waiting(map["p" := BidOp(Aborting)]),
               SendAbort("p", Delivered(true, true)), w);
    WildAppend(FourNodes(), DecideEvents("r", "a") + [SendCommit("p", Lost, true)], Waiting(map[]),
               [Submit("p", BidUnder("r "), 0.0)] + [SendPrepare("p", Delivered(true, true))]
               + [SendAbort("p", Delivered(true, true))], w);
  }
}
