# Blindsided: a model of its replication protocol, with proofs

Blindsided stores sealed-bid auctions on a primary replica and a synchronous backup. A controller assigns the
pair, evicts replicas that stop answering, promotes backups and finds new ones; a service in front of the storage
retries mutations on behalf of clients. This project models the four programs and proves what they promise
together.

| files | what they model |
|---|---|
| `Text.dfy` | identifiers as the services trim and order them |
| `AuctionDomain.dfy`, `AuctionLog.dfy` | candidate construction, acceptance order and result; the plain log of accepted operations every stored auction refines |
| `Replica.dfy`, `LocalInvariant.dfy` | a storage replica as a value, one function per lock-held region, and what each region keeps on its own |
| `Snapshot.dfy`, `StorageService.dfy` | the stored form of a replica and the replica as an object that changes its fields, saves them and undoes them when the save fails |
| `Cluster.dfy` | any number of replicas: submissions, lost, delayed and repeated calls, failing saves, restarts, promotions, overlapping synchronizations and completions |
| `PairInvariant.dfy`, `ClusterInvariant.dfy`, `MutationSteps.dfy`, `MailSteps.dfy`, `ConfigSteps.dfy` | the invariant of the cluster and its preservation by every event |
| `Durability.dfy`, `Failover.dfy`, `Provenance.dfy`, `MutationRun.dfy` | what follows for every reachable world and every run |
| `Reconciliation.dfy` | the reveal of overdue auctions |
| `Controller.dfy`, `ControllerInvariant.dfy`, `StaleContinuations.dfy`, `StrayMarks.dfy`, `ControllerService.dfy` | the controller as a value under arbitrary interleavings, which late replies and which marks of synchronization matter, and the controller as an object with its retry cascades |
| `JointSystem.dfy`, `JointInvariant.dfy`, `Recovery.dfy`, `JointFailover.dfy` | controller and replicas as one machine: what binds the two in every run, the election, and a whole failover |
| `Publication.dfy` | the controller from its very start, over replicas of which only the configuration matters, with any elections |
| `AuctionService.dfy` | the retry loops |
| `Limits.dfy`, `LosingRuns.dfy`, `ControllerLimits.dfy` | where the guarantees end: exact conditions, and concrete runs beyond them |

## How to read it

A region function such as `Replica.OnCommit` says what one critical section does. The classes do the same by
assignments, loops and undo, and every method is proved equal to its region (`View()` before and after). The
cluster and the controller interleave the regions; a primary holds its lock for a whole mutation, so it has at most
one operation in flight, while everything around it may be lost, fail or restart between two regions.
`MutationRun.DriveIsApply` closes the circle for the largest handler, its state and its reply. `acked` collects the
receipt behind every success reply, and the main result is that the designated backup holds all of it in every
reachable world (`Durability.AcknowledgedWritesSurvive`).

A call that its caller gave up may still take effect, at any later time and more than once: `mail` collects the
prepares, commits and aborts that may, `copies` the states that were read, `calls` the completions that were asked
for. The pair that serves (`Cluster.Config`) changes in the step where the current completion takes effect at the
primary, not when the controller learns of it.

`JointSystem` runs both machines together: an election starts a promotion, a choice of a backup ends the previous
synchronization, an accepted report calls the primary, an answered call lets its handler activate. In every system
they reach, a published primary is the one that serves, with the backup the controller believes in
(`Recovery.ReadyAgrees`), and after its loss the acknowledged writes are found where the election looks for them
(`Recovery.FirstCandidateHoldsAcknowledged`, `JointFailover.FailoverAnswersRetry`). `Publication` proves the first of
these once more for runs that begin with the controller itself and contain any elections, where what the replicas
store is left open.

What is asked of the environment is in `Cluster.Benign` and `JointSystem.Orderly` and nowhere else; `Publication.Fair`
asks for the parts of it that concern completions and recoveries. For the replicas:

- Request and auction ids of submissions are trimmed; the backup trims keys and the primary does not. Runs beyond:
  `LosingRuns.LookAlikeIdDestroysDecision`, `LosingRuns.UntrimmedAuctionIdNeverCommits`. Exact conditions:
  `Limits.AbortDestroysIff`, `Limits.CommitAcceptedIff`, `Snapshot.PrepareStaysStorableIff`.
- Between the fetch and the completion of a reprotection the old backup acknowledges no prepare. Run beyond:
  `LosingRuns.WindowLosesAcknowledgedWrite`. Exact conditions: `Limits.CopyAgreesIffUnchanged` for the pair,
  `Limits.WindowKeepsAcknowledgementsIff` for what was acknowledged.
- The completion of a superseded attempt, in a reprotection or a promotion, changes no replica any more. Run beyond:
  `LosingRuns.OvertakenCompletionLosesAcknowledgedWrite`. Exact conditions: `Limits.CompletionKeepsInvIff`,
  `Limits.CompletionElsewhereIff`, `Recovery.CompletionKeepsServiceIff`, `Publication.CompletionKeepsPublishedIff`.
- The state read by a superseded attempt is not installed over the designated backup. Run beyond:
  `LosingRuns.LateInstallationLosesAcknowledgedWrite`. Exact condition: `Limits.InstallationKeepsInvIff`.
- A delayed abort takes no effect on a request that a later attempt has decided or is about to decide; delayed
  prepares and commits are harmless whenever they arrive (`MailSteps.LateInv`). Run beyond:
  `LosingRuns.DelayedAbortDestroysDecision`. Exact condition: `Limits.LateAbortKeepsInvIff`.

For controller and replicas together:

- An election elects the designated backup, and no promotion is unfinished. After the loss of the primary alone this
  is what the program does (`Recovery.FirstCandidateHoldsAcknowledged`); whom it elects otherwise is decided by the
  marks left behind (`StrayMarks`). Run beyond: `ControllerLimits.SupersededReplicaIsElected`.
- A registration that recovers an assignment describes its replica as it is when it arrives, and no completion handler
  of that epoch is left. Run beyond: `ControllerLimits.RecoveredAssignmentReusesGeneration`. Exact condition:
  `StaleContinuations.SupersededActsIffReissued`.

A save is all or nothing. The documentation describes a failed save as leaving no trace; `snapshot_repository.py` can
raise after the rename, which the model does not follow.

## What the proofs found

- Completions overlap: while a call that asks the primary to serve with one replica waits for its lock, the controller
  may give up, choose another and activate it. When the first call takes effect afterwards the primary writes through
  a replica the controller will never elect, and acknowledged writes are lost
  (`LosingRuns.OvertakenCompletionLosesAcknowledgedWrite`). A state fetched early and installed late wipes out the
  backup in the same way (`LosingRuns.LateInstallationLosesAcknowledgedWrite`).
- The abort of a first attempt that arrives after the retry was decided tombstones a decided request for ever
  (`LosingRuns.DelayedAbortDestroysDecision`).
- An assignment that is dropped and recovered at the same epoch counts recovery generations from zero, so the guard
  against delayed completions can be fooled (`ControllerLimits.RecoveredAssignmentReusesGeneration`). It is fooled
  exactly when an identical ticket is handed out again (`StaleContinuations.SupersededActsIffReissued`), which an
  assignment that is not dropped never does (`StaleContinuations.NeverReissued`, `StaleContinuations.StaleForever`).
- The failure handlers of a promotion are not tied to the backup they are about
  (`ControllerLimits.OlderAttemptAbandonsPromotion`): a late failure changes something exactly when that promotion
  has been running ever since (`StaleContinuations.LateFailureActsIffStillPromoting`).
- A mark of synchronization can outlive the attempt it was given for: a failed dispatch leaves it, and so do the
  revocation of an unready backup, the replacement of a promotion's backup, the eviction of the primary and a
  registration, while nothing is assigned or at a later epoch (`StrayMarks.StrayNextIff`). The unrestricted election elects a superseded replica exactly when such a mark sorts
  first (`StrayMarks.ElectsSupersededIff`, `ControllerLimits.SupersededReplicaIsElected`); the restricted one after the
  loss of a primary alone is safe (`StaleContinuations.NominationElectsOnlyBackup`).
- An auction whose seller id was stored with surrounding blanks can never be revealed, by its seller or by
  reconciliation (`AuctionLog.RevealableIffSellerTrimmed`, `Reconciliation.RemainingAreUnrevealable`).
- Two branches of the controller are dead: the repair of a ready assignment without a backup, and the failure of an
  active backup in the wrong status (`ControllerInvariant.RepairIsIdle`, `ControllerInvariant.ActiveBackupStatus`).

## Model

| member | source | states |
|---|---|---|
| `AuctionDomain.ExistingMutationError` | backend/blindsided/storage/auction_domain.py:94-141 | an accepted request finds an open auction at exactly the version it expects, with a valid acceptance order |
| `AuctionDomain.WinningBidder` | backend/blindsided/storage/auction_domain.py:242-245 | the winner ranks before every bid; being unique, it is a function of the bid map |
| `AuctionDomain.WinnerUnique` | backend/blindsided/storage/auction_domain.py:242-245 | two bidders that both rank first are the same bidder |
| `AuctionDomain.SelectWinner` | backend/blindsided/storage/auction_domain.py:242-245 | one pass over the bids in any order finds that same winner |
| `AuctionLog.CreateStartsLog` | backend/blindsided/storage/auction_domain.py:37-62 | a created auction is a log with its opening alone: version 1, next sequence number 1, no bids |
| `AuctionLog.BidExtendsLog` | backend/blindsided/storage/auction_domain.py:143-200 | an accepted bid is one more log entry: it becomes its bidder's standing bid with the next acceptance order |
| `AuctionLog.WithdrawExtendsLog` | backend/blindsided/storage/auction_domain.py:202-229 | an accepted withdrawal is one more log entry and leaves the other standing bids and the next order alone |
| `AuctionLog.RevealExtendsLog` | backend/blindsided/storage/auction_domain.py:260-266 | a reveal is the last log entry and stores the result of the bids as they stand |
| `AuctionLog.CandidateExtendsLog` | backend/blindsided/storage/auction_domain.py:10-35 | every candidate of a log-refining auction refines the log with exactly one more legal entry |
| `AuctionLog.CandidateReachable` | backend/blindsided/storage/auction_domain.py:10-35 | every candidate of a reachable auction is reachable and one version later |
| `AuctionLog.StandingIsLatestBid` | backend/blindsided/storage/auction_domain.py:189-199 | a bidder stands by a bid iff it is that bidder's last entry, and its order is its ordinal among all accepted bids |
| `AuctionLog.StandingDistinct` | backend/blindsided/storage/auction_domain.py:275-286 | no two standing bids share an acceptance order |
| `AuctionLog.AmountsRise` | backend/blindsided/storage/auction_domain.py:182-187 | a bidder's amounts strictly rise from bid to bid until a withdrawal |
| `AuctionLog.ReachablePassesCheck` | backend/blindsided/storage/auction_domain.py:288-301 | whatever the primary can build passes the check of the backup, the loader and the installer |
| `AuctionLog.ResultCharacterized` | backend/blindsided/storage/auction_domain.py:231-258 | on reachable auctions a sale happens iff some bid reaches the reserve, and the winner is the one with the highest amount and among those the earliest order; the bidder id never decides |
| `AuctionLog.RevealableIffSellerTrimmed` | backend/blindsided/storage/auction_domain.py:113-120 | an open auction can be revealed by some request iff its stored seller id is trimmed |
| `LocalInvariant.StartIsProposable` | backend/blindsided/storage/service.py:209-272 | a proposal is for an unused, untombstoned id, one version after the stored auction, with a receipt that names it |
| `LocalInvariant.RecordDecisionSound` | backend/blindsided/storage/service.py:662-720 | recording a decision keeps exactly-once accounting, disjoint ids and matching pending decisions, saved or not |
| `LocalInvariant.ClearPendingSound` | backend/blindsided/storage/service.py:722-756 | clearing a decision keeps the replica sound |
| `LocalInvariant.OnPrepareSound` | backend/blindsided/storage/service.py:842-947 | a prepare keeps the replica sound, whatever its outcome |
| `LocalInvariant.OnCommitSound` | backend/blindsided/storage/service.py:950-1054 | a commit keeps the replica sound: one receipt more, one version more, never two receipts for a version |
| `LocalInvariant.OnAbortSound` | backend/blindsided/storage/service.py:1057-1148 | an abort keeps committed, prepared and tombstoned ids disjoint |
| `LocalInvariant.OnBeginSound` | backend/blindsided/storage/service.py:1153-1214 | beginning a promotion keeps the replica sound |
| `LocalInvariant.OnInstallSound` | backend/blindsided/storage/service.py:1581-1651 | installing a sound full state keeps the replica sound |
| `LocalInvariant.SoundStateInstalls` | backend/blindsided/storage/service.py:1216-1255 | confirmation never fails on a sound replica's auctions, and its state can be installed elsewhere |
| `LocalInvariant.VersionCountsReceipts` | backend/blindsided/storage/service.py:448-463 | the version of an auction is the number of receipts naming it |
| `PairInvariant.PreparePaired` | backend/blindsided/storage/service.py:620-647 | a prepare keeps the pair equal or one decided version apart; an acknowledged one stages the candidate on an equal auction |
| `PairInvariant.DecidePaired` | backend/blindsided/storage/service.py:662-720 | deciding a staged candidate puts the primary exactly one version ahead on that auction and on no other |
| `PairInvariant.CommitPaired` | backend/blindsided/storage/service.py:950-1054 | a commit message closes the gap on its auction or changes nothing, and the backup's receipts only grow |
| `PairInvariant.AbortPaired` | backend/blindsided/storage/service.py:758-775 | aborting an undecided request leaves the pair as it was |
| `PairInvariant.GapCanClose` | backend/blindsided/storage/service.py:411-446 | whatever was lost before, one delivered commit completes a pending decision |
| `ClusterInvariant.InitialInv` | backend/blindsided/storage/service.py:70-80 | a freshly activated pair with empty stores meets the cluster invariant |
| `MutationSteps.SubmitInv` | backend/blindsided/storage/service.py:209-272 | a submission, replayed, resumed, refused or proposed, keeps the cluster invariant |
| `MutationSteps.PrepareInv` | backend/blindsided/storage/service.py:791-807 | a prepare, lost on the way, lost on the way back or answered, keeps the cluster invariant |
| `MutationSteps.DecideInv` | backend/blindsided/storage/service.py:809-825 | a durable decision, saved or not, keeps the cluster invariant |
| `MutationSteps.CommitInv` | backend/blindsided/storage/service.py:827-837 | a commit call and the clearing of its decision keep the cluster invariant; an acknowledgement implies the designated backup holds the receipt |
| `MutationSteps.AbortInv` | backend/blindsided/storage/service.py:796-800 | an abort keeps the cluster invariant |
| `MutationSteps.RestartInv` | backend/blindsided/storage/service.py:1683-1733 | a crash and restart of any replica keeps the cluster invariant |
| `MailSteps.DelayInv` | backend/blindsided/storage/service.py:791-837 | a call of a mutation that its caller may have given up is of an epoch no promotion under way has reached, and a commit of the pair's epoch is for a decided request |
| `MailSteps.LateInv` | backend/blindsided/storage/service.py:842-1148 | whenever such a call takes effect, at whatever replica and however often, it keeps the cluster invariant; only an abort of a request that was decided since is excluded |
| `ConfigSteps.StartPromotionInv` | backend/blindsided/controller/service.py:1096-1112 | planning a promotion at a later epoch keeps the cluster invariant |
| `ConfigSteps.StartReprotectionInv` | backend/blindsided/controller/service.py:823-890 | planning a new backup keeps the cluster invariant |
| `ConfigSteps.DropSyncInv` | backend/blindsided/controller/service.py:979-991 | giving up the current synchronization, or closing it, keeps the cluster invariant |
| `ConfigSteps.BeginInv` | backend/blindsided/storage/service.py:1153-1214 | an accepted promotion fences the old primary and freezes the candidate |
| `ConfigSteps.FetchInv` | backend/blindsided/storage/service.py:1322-1342 | handing out the full state keeps the cluster invariant |
| `ConfigSteps.FetchAsideInv` | backend/blindsided/storage/service.py:1322-1342 | so does handing it out to a replica of a superseded or uncalled-for attempt |
| `ConfigSteps.InstallInv` | backend/blindsided/storage/service.py:1581-1651 | installing a state read by any attempt, early or late, saved or not, keeps the cluster invariant, unless it goes over the designated backup |
| `ConfigSteps.CompleteInv` | backend/blindsided/storage/service.py:1258-1317 | a completion that takes effect, with the current target or without effect for an older one, keeps the cluster invariant; the pair that serves changes in that step |
| `ConfigSteps.NextInv` | backend/blindsided/storage/service.py:842-1317 | every event keeps the cluster invariant, the overlapping attempts and delayed calls included |
| `ConfigSteps.RunInv` | backend/blindsided/storage/service.py:842-1317 | so does every run |
| `Durability.PairAgreement` | backend/blindsided/storage/service.py:777-837 | in every reachable world and for every auction the primary's version equals the backup's, with identical auctions, or is one ahead, with a pending decision for this backup that has prepared exactly that candidate and receipt |
| `Durability.TombstonedIsUndecided` | backend/blindsided/storage/service.py:1126-1129 | a request tombstoned on the designated backup is decided on neither replica |
| `Durability.RequestIdsDisjoint` | backend/blindsided/storage/service.py:876-902 | on every replica a request id is committed, prepared or tombstoned, never two of these |
| `Durability.ExactlyOnce` | backend/blindsided/storage/service.py:247-272 | on every replica an auction's version is the number of receipts naming it, and each version from 1 on is named by exactly one |
| `Durability.ProposalAcceptedIff` | backend/blindsided/storage/service.py:620-647 | with calls delivered and disks working, a proposal is acknowledged iff its id is not tombstoned, nothing different is prepared under it and the backup has caught up on the auction |
| `Durability.SuccessIsAcked` | backend/blindsided/storage/service.py:411-446 | every success reply repeats a receipt that counts as acknowledged from then on |
| `Durability.NextRemembers` | backend/blindsided/storage/service.py:777-837 | no event forgets or alters an acknowledgement |
| `Durability.AcknowledgedWritesSurvive` | backend/blindsided/storage/service.py:777-837 | after a success reply, and whatever happens later, delayed calls and any number of failovers and reprotections included, the designated backup holds that receipt with that version, and so does its primary |
| `Durability.RepliesAgree` | backend/blindsided/storage/service.py:443-446 | two success replies to one request, however far apart, name the same auction and version |
| `Durability.RetryReplays` | backend/blindsided/storage/service.py:411-446 | resubmitting an acknowledged request to the primary proposes nothing and changes no replica |
| `Durability.EpochsNeverDecrease` | backend/blindsided/storage/service.py:1161-1197 | no event lowers a replica's epoch |
| `Durability.FencedForever` | backend/blindsided/storage/service.py:842-856 | once a replica has reached an epoch, no prepare, commit or abort of an earlier one succeeds or changes anything there, ever |
| `Durability.StalePrimaryIsRefused` | backend/blindsided/storage/service.py:791-807 | a primary outside the pair, or whose backup began its promotion, is never acknowledged again |
| `Durability.FreshSuccessIsCurrent` | backend/blindsided/storage/service.py:827-837 | a success that is not a replay comes only from the current primary before its backup is promoted |
| `Durability.CandidateIsFrozen` | backend/blindsided/storage/service.py:1190-1209 | from the accepted Begin to the completion no event touches the candidate's auctions or receipts |
| `Durability.ActivationAgreement` | backend/blindsided/storage/service.py:1285-1317 | whenever the pair that serves changes, the new backup holds exactly the new primary's auctions and receipts, and what it has staged or tombstoned is undecided |
| `Failover.FailoverCompletes` | backend/blindsided/storage/service.py:1153-1317 | from every activated pair the promotion of the backup can run to its end, losing no acknowledgement |
| `Failover.FailoverThenRetry` | backend/blindsided/storage/service.py:411-446 | after such a failover a retry of an acknowledged request replays the original answer and changes no replica |
| `JointInvariant.AdvanceInv` | backend/blindsided/controller/service.py:655-691 | every step of controller and replicas keeps them tied: the assignment is the configuration's, a synchronization in progress is the awaited one, and an answered handler that is still current asked for the pair that serves |
| `JointInvariant.StepsInv` | backend/blindsided/controller/service.py:151-1594 | so does every run of the two |
| `Recovery.ReadyAgrees` | backend/blindsided/controller/service.py:343-359 | whenever a primary is published it is ready at the published epoch and its backup is the one the controller believes in, which is a backup of that epoch |
| `Recovery.CompletionKeepsServiceIff` | backend/blindsided/storage/service.py:1285-1299 | a completion leaves that so iff it is not one of a superseded attempt that changes the primary |
| `Recovery.FirstCandidateHoldsAcknowledged` | backend/blindsided/controller/service.py:1531-1542 | the election set off by the eviction of a protected primary, whenever it runs and whatever clients and replicas did since, elects nobody or a replica that holds every acknowledged receipt, at an epoch its replicas accept |
| `JointFailover.FailoverActivates` | backend/blindsided/controller/service.py:1084-1282 | from every system in which a primary is published, evicting it can lead through election, promotion, choice of the next replica, copy, completion and activation to the backup being published with that replica behind it |
| `JointFailover.FailoverAnswersRetry` | backend/blindsided/controller/service.py:1084-1107 | and a client that retries an acknowledged request there gets the original answer back, without a change at any replica |
| `Publication.MoveInv` | backend/blindsided/controller/service.py:655-691 | every region, election, promotion, completion, installation, restart and mutation, at any replica and with any arguments, keeps this: an answered handler that is still current, and a ready assignment, name a primary configured at that epoch with that backup |
| `Publication.PublishedIsConfigured` | backend/blindsided/controller/service.py:343-359 | from the start of the controller, over replicas in any state and through any elections: a published primary is ready at the published epoch with the backup the controller believes in |
| `Publication.PublishedBy` | backend/blindsided/controller/service.py:235-255 | a new assignment is published only by the handler of the current attempt or by a registration of a ready primary at that epoch with that backup |
| `Publication.CompletionKeepsPublishedIff` | backend/blindsided/storage/service.py:1285-1299 | while a primary is published, a completion leaves that so iff it does not reconfigure it for a replica the controller does not wait for |
| `Limits.CopyAgreesIffUnchanged` | backend/blindsided/storage/service.py:1322-1342 | a copy forms a pair with the primary iff the primary's stores did not change since they were read |
| `Limits.WindowKeepsAcknowledgementsIff` | backend/blindsided/storage/service.py:1285-1299 | whatever happens between the fetch and the use of a copy, it holds every acknowledgement iff each receipt acknowledged in between was in the state fetched |
| `Limits.CompletionKeepsInvIff` | backend/blindsided/storage/service.py:1285-1299 | a completion at a replica of the pair keeps the cluster invariant iff it is the current attempt's or changes nothing |
| `Limits.CompletionElsewhereIff` | backend/blindsided/storage/service.py:1285-1299 | at a replica outside the pair it does iff its new backup fences it and holds whatever it may confirm |
| `Limits.InstallationKeepsInvIff` | backend/blindsided/storage/service.py:1581-1651 | a state installed over the designated backup keeps it iff it is what the primary holds at that epoch and no decision is about to rest on the backup's preparation |
| `Limits.LateAbortKeepsInvIff` | backend/blindsided/storage/service.py:1073-1148 | a delayed abort keeps it iff it changes nothing or its request is neither decided nor about to be |
| `Limits.AbortDestroysIff` | backend/blindsided/storage/service.py:1073-1129 | an abort destroys a decided request iff its trimmed id is one the primary decided and the backup has not committed, for the same auction |
| `Limits.CommitAcceptedIff` | backend/blindsided/storage/service.py:965-1010 | a prepared mutation can be committed iff its auction id is trimmed |
| `Limits.CreationRetryConflictsIff` | backend/blindsided/storage/service.py:334-345 | a retried creation is taken for a different request iff it carries no mutation type |
| `LosingRuns.WindowLosesAcknowledgedWrite` | backend/blindsided/storage/service.py:1285-1299 | a run in which a write acknowledged between the fetch and the completion of a reprotection is lost |
| `LosingRuns.OvertakenCompletionLosesAcknowledgedWrite` | backend/blindsided/controller/service.py:546-567 | a run in which the completion of a first attempt takes effect after that of the second, and a write acknowledged from then on is missing from the backup the controller will elect |
| `LosingRuns.LateInstallationLosesAcknowledgedWrite` | backend/blindsided/storage/service.py:1437-1475 | a run in which a state read before a write and installed after it wipes the write out |
| `LosingRuns.DelayedAbortDestroysDecision` | backend/blindsided/storage/service.py:758-775 | a run in which the abort of a first attempt arrives after the retry was decided and makes the backup refuse its commit from then on |
| `LosingRuns.UntrimmedAuctionIdNeverCommits` | backend/blindsided/storage/service.py:965-1010 | a run in which a creation under an auction id with a trailing blank is decided and its commit refused for ever |
| `LosingRuns.LookAlikeIdDestroysDecision` | backend/blindsided/storage/service.py:858-860 | a run in which a request id with a trailing blank makes the backup tombstone a decided request and refuse its commit from then on |
| `MutationRun.DriveIsApply` | backend/blindsided/storage/service.py:209-272 | the handler and the cluster agree: the events of one mutation leave its primary exactly as the handler leaves its object, and the last one answers exactly what the handler returns |
| `MutationRun.DriveIsRun` | backend/blindsided/storage/service.py:777-837 | the events of one mutation are a run the programs allow |
| `Provenance.OneOperationOneReceipt` | backend/blindsided/storage/service.py:347-446 | if every submission under an id has one fingerprint, every receipt under it anywhere is that operation's, no other receipt names its version, and no attempt conflicts with another |
| `Provenance.SuccessIsThisOperation` | backend/blindsided/storage/service.py:411-446 | a success reply to any of the attempts means exactly that operation's receipt is kept from then on |
| `Snapshot.IndexRestores` | backend/blindsided/storage/service.py:1707-1723 | building a dictionary from its values restores it iff every value sits under its own id |
| `Snapshot.Values` | backend/blindsided/storage/service.py:1741-1745 | the list holds the dictionary's values, one for each key |
| `Snapshot.IndexValid` | backend/blindsided/storage/service.py:1691-1705 | an index is built iff every entry is valid and no key repeats |
| `Snapshot.Index` | backend/blindsided/storage/service.py:1708-1723 | the loop builds the dictionary in which a later entry replaces an earlier one |
| `Snapshot.Read` | backend/blindsided/storage/service.py:1683-1729 | reading back yields the stored state, or refuses an invalid or duplicate auction |
| `Snapshot.LoadRestores` | backend/blindsided/storage/service.py:1683-1755 | persist then load resumes the replica, all eight fields included, iff every value sits under its own id and every auction is valid |
| `Snapshot.SoundIsStorable` | backend/blindsided/storage/service.py:1683-1755 | a sound replica loses nothing in a restart |
| `Snapshot.PrepareStaysStorableIff` | backend/blindsided/storage/service.py:932-936 | a prepared mutation comes back from the disk under its own key iff its id was trimmed |
| `StorageService.StorageReplicaService.constructor` | backend/blindsided/storage/service.py:70-80 | starts as an idle backup with empty collections |
| `StorageService.StorageReplicaService.PersistStateToDisk` | backend/blindsided/storage/service.py:1735-1755 | a save writes exactly the state in memory or leaves the disk as it was |
| `StorageService.StorageReplicaService.LoadStateFromDisk` | backend/blindsided/storage/service.py:1683-1733 | a load takes everything from the snapshot or changes nothing |
| `StorageService.StorageReplicaService.Restart` | backend/blindsided/storage/service.py:1683-1733 | a crash at any point resumes from the last successful handler iff the replica is storable |
| `StorageService.StorageReplicaService.PrepareAuctionMutation` | backend/blindsided/storage/service.py:842-947 | refines the prepare region; memory and disk agree afterwards, and a failed save leaves both as they were |
| `StorageService.StorageReplicaService.CommitPreparedMutation` | backend/blindsided/storage/service.py:950-1054 | refines the commit region, with the same save atomicity |
| `StorageService.StorageReplicaService.AbortPreparedMutation` | backend/blindsided/storage/service.py:1057-1148 | refines the abort region, with the same save atomicity |
| `StorageService.StorageReplicaService.RecordCommitDecision` | backend/blindsided/storage/service.py:649-720 | refines the durable decision: auction, receipt and pending decision together or none of them |
| `StorageService.StorageReplicaService.CompletePendingBackupCommit` | backend/blindsided/storage/service.py:722-756 | refines the clearing of a decision: only after the backup acknowledged its version |
| `StorageService.StorageReplicaService.CoordinateSynchronousCommit` | backend/blindsided/storage/service.py:777-837 | refines prepare, decide and commit, and gives the reply each failure calls for |
| `StorageService.StorageReplicaService.CheckIdempotency` | backend/blindsided/storage/service.py:411-446 | answers a known id by conflict, by replay or after completing its commit; an unknown id changes nothing |
| `StorageService.StorageReplicaService.ApplyAuctionMutation` | backend/blindsided/storage/service.py:209-272 | refines the whole mutation |
| `StorageService.StorageReplicaService.BeginPrimaryPromotion` | backend/blindsided/storage/service.py:1153-1214 | refines the begin region, with save atomicity |
| `StorageService.StorageReplicaService.ConfirmPromotionState` | backend/blindsided/storage/service.py:1217-1255 | the loop confirms iff the candidate is a primary of this epoch with valid auctions and nothing prepared or pending |
| `StorageService.StorageReplicaService.CompletePrimaryPromotion` | backend/blindsided/storage/service.py:1258-1311 | refines the completion region, with save atomicity |
| `StorageService.StorageReplicaService.SyncFullState` | backend/blindsided/storage/service.py:1322-1342 | a primary of the epoch hands out lists of exactly its auctions and receipts |
| `StorageService.StorageReplicaService.IndexFullState` | backend/blindsided/storage/service.py:1590-1608 | a received state is indexed iff no entry is blank, repeated or invalid |
| `StorageService.StorageReplicaService.ReplaceWithFullState` | backend/blindsided/storage/service.py:1581-1651 | refines the installation, with save atomicity; a malformed state changes nothing |
| `StorageService.SentIsReceived` | backend/blindsided/storage/service.py:1337-1342 | what a sound source hands out is received as exactly its stores |
| `StorageService.StorageReplicaService.FindOverdueOpenAuctionIds` | backend/blindsided/storage/service.py:465-478 | the loop finds exactly the open auctions whose deadline has passed, sorted |
| `StorageService.StorageReplicaService.FinalizeOverdueAuction` | backend/blindsided/storage/service.py:488-528 | refines the reveal of one overdue auction |
| `StorageService.StorageReplicaService.ReconcileOverdueAuctions` | backend/blindsided/storage/service.py:530-556 | the loop refines a whole pass, its final state and its list of replies |
| `Reconciliation.SoundIsTidy` | backend/blindsided/storage/service.py:465-478 | a sound replica has its auctions under their ids with valid acceptance orders, which is all the following need |
| `Reconciliation.FinalizeRevealsIff` | backend/blindsided/storage/service.py:488-528 | with network and disk working, an overdue auction is revealed iff its reveal id is unused and its seller id trimmed |
| `Reconciliation.OnlyOverdueRevealed` | backend/blindsided/storage/service.py:530-556 | whatever the network does, a pass changes an auction only from open and overdue to its revealed form |
| `Reconciliation.RevealedOnce` | backend/blindsided/storage/service.py:530-556 | an auction changes in at most one of any two passes |
| `Reconciliation.RemainingAreUnrevealable` | backend/blindsided/storage/service.py:530-556 | if all commits succeed, the open overdue auctions left are exactly those that cannot be revealed |
| `Reconciliation.OneAnswerEach` | backend/blindsided/storage/service.py:530-556 | every overdue auction gets exactly one reply, in sorted order, from the state its predecessors left |
| `Reconciliation.AnswersTellReveals` | backend/blindsided/storage/service.py:530-556 | wherever a pass replies with a success that is not a replay, that auction is revealed when the pass ends |
| `Text.First` | backend/blindsided/controller/service.py:756-763 | the address that sorts first, or none iff there is none to choose from |
| `ControllerInvariant.RegisterOk` | backend/blindsided/controller/service.py:151-340 | registration keeps the controller invariant; its reply carries the last epoch, which is no lower than the one reported |
| `ControllerInvariant.RepairIsIdle` | backend/blindsided/controller/service.py:311-323 | the branch for a ready assignment without a backup is never taken |
| `ControllerInvariant.NextOk` | backend/blindsided/controller/service.py:151-1594 | every region keeps the invariant with any arguments, and the last epoch never decreases |
| `ControllerInvariant.AssignmentShape` | backend/blindsided/controller/service.py:151-1594 | in every interleaving: ready means a non-empty backup other than the primary and no replacement candidate, reprotecting means no backup, promoting means no replacement candidate, no assignment means no election, and an assignment's epoch is the last epoch |
| `ControllerInvariant.ElectionDecides` | backend/blindsided/controller/service.py:1084-1112 | an election takes place iff nothing is assigned and somebody is eligible; it uses a larger epoch, and unrestricted it elects only a replica synchronized at the last epoch |
| `ControllerInvariant.PromotionPool` | backend/blindsided/controller/service.py:1126-1139 | a promotion uses only replicas registered at its election, each at most once, and gives up only when all have been tried |
| `ControllerInvariant.ActiveBackupStatus` | backend/blindsided/controller/service.py:1543-1579 | the failure of an active backup never meets a reprotecting assignment |
| `ControllerInvariant.ReportedEpochsReached` | backend/blindsided/controller/service.py:233-234 | the last epoch is from then on at least every epoch ever reported |
| `ControllerInvariant.ElectionsUseFreshEpochs` | backend/blindsided/controller/service.py:1097-1104 | of two elections in an interleaving the later uses the larger epoch |
| `StaleContinuations.ContinuationsIdleWhenReady` | backend/blindsided/controller/service.py:655-691 | on a ready assignment no continuation of any attempt, however late, changes anything |
| `StaleContinuations.ReadyEndsIff` | backend/blindsided/controller/service.py:196-1557 | a ready assignment changes iff its backup is lost or unready, its primary is evicted, or a higher epoch is reported |
| `StaleContinuations.BecomesReadyOnlyBy` | backend/blindsided/controller/service.py:655-691 | an assignment becomes ready only if primary, epoch, status, generation and target are those validated before the call, or by a recovery whose backup is registered and synchronized at that epoch |
| `StaleContinuations.TicketsAreKnown` | backend/blindsided/controller/service.py:514-519 | a validated completion or a picked replacement is the current attempt when it is issued |
| `StaleContinuations.StaysKnown` | backend/blindsided/controller/service.py:655-691 | every ticket stays part of its assignment's past for as long as that assignment is not dropped |
| `StaleContinuations.RevivedIff` | backend/blindsided/controller/service.py:823-913 | a step makes a superseded attempt current again iff it hands out an identical ticket |
| `StaleContinuations.SupersededActsIffReissued` | backend/blindsided/controller/service.py:655-691 | after whatever events, a late completion, rejection or dispatch failure of a superseded attempt changes something iff an identical ticket was handed out in between and is still current |
| `StaleContinuations.NeverReissued` | backend/blindsided/controller/service.py:893-900 | an assignment that is not dropped hands out no ticket twice |
| `StaleContinuations.StaleForever` | backend/blindsided/controller/service.py:798-821 | so within it no completion, rejection or dispatch failure of a superseded attempt changes anything, however late it arrives |
| `StaleContinuations.LateFailureActsIff` | backend/blindsided/controller/service.py:1294-1376 | each failure handler of a promotion changes something iff that promotion is the current assignment, and for a backup's failure iff that backup is the current one |
| `StaleContinuations.PromotionNeverResumes` | backend/blindsided/controller/service.py:1096-1112 | a promotion that is over never becomes current again |
| `StaleContinuations.LateFailureActsIffStillPromoting` | backend/blindsided/controller/service.py:1354-1376 | a candidate's failure or an abandonment that arrives late changes something iff that promotion has been running ever since |
| `StaleContinuations.LateBackupFailureActsIff` | backend/blindsided/controller/service.py:1325-1344 | a promotion backup's failure that arrives late changes something iff that backup has been the current one ever since |
| `StaleContinuations.GenerationsIncrease` | backend/blindsided/controller/service.py:893-900 | within an assignment generations never fall, and each new replacement attempt takes the next one and a replica not tried before |
| `StrayMarks.StrayNextIff` | backend/blindsided/controller/service.py:1436-1456 | event by event: a mark of synchronization outlives its attempt iff the event left it (a failed dispatch, a revoked backup, a replaced promotion backup, an evicted primary, a registration) or it was there and the event did not clear it |
| `StrayMarks.StrayAfterIff` | backend/blindsided/controller/service.py:160-185 | over any events: such a mark is there iff it was there or left at some moment and not cleared since |
| `StrayMarks.UnrestrictedElects` | backend/blindsided/controller/service.py:743-763 | after the loss of a primary the unrestricted election elects exactly the marked replica that sorts first |
| `StrayMarks.ElectsSupersededIff` | backend/blindsided/controller/service.py:743-763 | it elects a superseded replica iff a stray mark is the first electable one |
| `StrayMarks.ElectsActiveBackupIff` | backend/blindsided/controller/service.py:743-763 | it elects the active backup iff that is marked and sorts before every stray mark |
| `StrayMarks.ElectsAfterBothLostIff` | backend/blindsided/controller/service.py:1543-1557 | with the backup lost before the primary it elects somebody iff a stray mark is left, and then the first of them |
| `StaleContinuations.EvictionNominatesBackup` | backend/blindsided/controller/service.py:1531-1542 | evicting the primary of a protected assignment calls for an election restricted to its backup |
| `StaleContinuations.NominationElectsOnlyBackup` | backend/blindsided/controller/service.py:743-763 | whenever that election runs, it elects that backup at an epoch above all before, or nobody |
| `ControllerLimits.RecoveredAssignmentReusesGeneration` | backend/blindsided/controller/service.py:233-255 | an interleaving in which an assignment recovered at its old epoch takes the completion of an older attempt for the current one |
| `ControllerLimits.SupersededReplicaIsElected` | backend/blindsided/controller/service.py:979-991 | an interleaving in which a replica that was superseded as a candidate keeps its mark and is elected after backup and primary are lost |
| `ControllerLimits.OlderAttemptAbandonsPromotion` | backend/blindsided/controller/service.py:585-591 | an interleaving in which the late completion failure of an earlier backup abandons a promotion that is synchronizing the next one |
| `ControllerService.Service.constructor` | backend/blindsided/controller/service.py:101-115 | starts with no members, no assignment and epoch zero |
| `ControllerService.Service.RegisterNode` | backend/blindsided/controller/service.py:151-340 | refines the registration region, its reply and the worker it starts |
| `ControllerService.Service.ValidateCompletion` | backend/blindsided/controller/service.py:414-519 | refines the validation that precedes the call to the primary |
| `ControllerService.Service.ActivateBackup` | backend/blindsided/controller/service.py:655-691 | refines the activation that follows it |
| `ControllerService.Service.FinishCompletion` | backend/blindsided/controller/service.py:568-691 | succeeds iff the call was accepted and the attempt is still current; a superseded replacement attempt changes nothing, however its call ended |
| `ControllerService.Service.RejectReplacementCandidate` | backend/blindsided/controller/service.py:798-821 | refines the rejection of the current replacement attempt |
| `ControllerService.Service.SelectReplacement` | backend/blindsided/controller/service.py:823-913 | refines the choice of the next replacement |
| `ControllerService.Service.GiveUpCandidate` | backend/blindsided/controller/service.py:979-991 | refines the release of a candidate whose dispatch failed |
| `ControllerService.Service.ClearSynchronization` | backend/blindsided/controller/service.py:1109-1111 | the loop removes every replica's synchronization mark and nothing else |
| `ControllerService.Service.SelectCandidate` | backend/blindsided/controller/service.py:1084-1112 | refines the election |
| `ControllerService.Service.SelectBackup` | backend/blindsided/controller/service.py:1204-1222 | refines the choice of a promotion's next backup |
| `ControllerService.Service.DropCandidate` | backend/blindsided/controller/service.py:1294-1316 | refines the eviction of a failed candidate and the pool of the next election |
| `ControllerService.Service.DropBackup` | backend/blindsided/controller/service.py:1325-1344 | refines the eviction of a failed promotion backup |
| `ControllerService.Service.AbandonPromotion` | backend/blindsided/controller/service.py:1354-1376 | refines the end of a promotion without backups |
| `ControllerService.Service.ReceiveHeartbeat` | backend/blindsided/controller/service.py:1423-1463 | refines an answered heartbeat |
| `ControllerService.Service.RecordHeartbeatFailure` | backend/blindsided/controller/service.py:1471-1484 | refines a missed heartbeat; the third in a row calls for eviction |
| `ControllerService.Service.RemoveReplica` | backend/blindsided/controller/service.py:1486-1589 | refines the eviction and its classification |
| `ControllerService.Service.TryNextReplacementBackup` | backend/blindsided/controller/service.py:823-1082 | with every call answered adversarially the cascade stops after at most as many dispatches as replicas are left to try, and is an interleaving of regions |
| `ControllerService.Service.TryNextPromotionBackup` | backend/blindsided/controller/service.py:1204-1282 | the cascade over promotion backups stops, consumes no epoch and is an interleaving of regions |
| `ControllerService.Service.HandlePromotionBackupFailure` | backend/blindsided/controller/service.py:1325-1352 | so does its failure handler |
| `ControllerService.Service.ElectNewPrimary` | backend/blindsided/controller/service.py:1084-1122 | the election cascade stops, consumes at most one epoch per registered replica and is an interleaving of regions |
| `ControllerService.Service.NotifyPromotion` | backend/blindsided/controller/service.py:1141-1202 | the promotion of one candidate stops; a failing one costs at most one epoch per other replica |
| `ControllerService.Service.HandleCandidatePromotionFailure` | backend/blindsided/controller/service.py:1286-1323 | so does its failure handler |
| `ControllerService.Service.HandleReplicaFailure` | backend/blindsided/controller/service.py:1486-1639 | everything an eviction sets off stops, and the replica is gone at the end |
| `ControllerService.Service.CheckHeartbeatsOnce` | backend/blindsided/controller/service.py:1389-1469 | a pass over the membership stops, registers nobody and is an interleaving of regions |
| `ControllerService.LeadsIsRun` | backend/blindsided/controller/service.py:823-1352 | what the cascades call an interleaving is a run of events of the controller model, and conversely |
| `AuctionService.AttemptsShareFingerprint` | backend/blindsided/auction_service/service.py:477-490 | the fingerprint of an attempt is the operation's, whatever version and epoch it carries |
| `AuctionService.RetryMutation` | backend/blindsided/auction_service/service.py:440-807 | every request sent is an attempt of this operation at the version its predecessors reported, only conflicts and failovers are retried, success is reported iff the last attempt succeeded, and an unknown outcome only if its acknowledgement may be missing |
| `AuctionService.RetryCreation` | backend/blindsided/auction_service/service.py:349-436 | a creation is retried after failovers only, with the same guarantees, and reports the auction storage named or else the one it asked for |
| `AuctionService.AttemptsAreOne` | backend/blindsided/auction_service/service.py:453-490 | wherever an attempt is submitted, storage takes it for the same operation |
| `AuctionService.CallLeavesOneReceipt` | backend/blindsided/auction_service/service.py:447-557 | however the attempts of one call mix with lost replies, conflicts and failovers, every replica holds at most its one receipt, and no other receipt names its version |

## Left out

- AcknowledgedWritesSurvive: stated for runs that meet the hypotheses of `Cluster.Benign`, because beyond each of them
  there is a run in which a decided write is destroyed or an acknowledged one lost; the same holds for the other
  results about reachable worlds.
- RetryReplays: stated for requests with an explicit mutation type, as the service sends them, because a creation
  without one conflicts with its own receipt (`Limits.CreationRetryConflictsIff`).
- DriveIsApply: leaves out a replica that names itself as its backup, which the completion handler refuses.
- FirstCandidateHoldsAcknowledged: stated for a primary whose registered backup is still a member when it is evicted.
- FailoverActivates: the target must be able to serve as a backup; a first choice that fails is replaced by the cascade
  proved to stop in `ControllerService`.
- Retried elections after a failed first candidate: they may use any replica registered at the election, so durability
  is stated for the first candidate; safety, termination and epochs of the controller and the configuration of what it
  publishes (`Publication.PublishedIsConfigured`) cover the retries too.
- A save that raises after its rename took effect: not modelled, a failed save leaves the disk as it was.
- Running without a state file: persistence is always enabled.
- `_initialize_connection` and the standby loop: role, epoch and readiness change there without a save; a restart in
  the model keeps the stored epoch and derives the role from the snapshot.
- A process started with another role than backup in its environment: a restarted replica that is not a ready primary
  is a backup.
- The readiness bit a backup announces after it reported its synchronization: registrations and heartbeats of backups
  carry arbitrary readiness instead.
- Histories before the first activated pair: runs start from an activated pair with empty stores.
- The reconciliation at the end of `CompletePrimaryPromotion`: its reveals are ordinary submissions that follow.
- `SynchronizeFromPrimary` as one handler: the cluster has its fetch, installation and completion as separate events.
- The membership table: `PrimaryAssignment` is an object in the model, `ReplicaRecord` is a value: aliasing between the
  membership table and a record held by a handler is not captured; no handler holds one across a lock release.
- Python's dictionary order: values are listed in an arbitrary order, which no result depends on.
- Threads the controller starts are called in place in the cascades; interference from other regions is covered by the
  interleaving model, whose events take any arguments at any time.
- 32-bit widths of versions, epochs and sequence numbers: integers are unbounded.
- Floating-point rounding of amounts and deadlines: finite amounts and times are real numbers; infinities and NaN stay
  as rejected inputs.
- White space beyond the ASCII set: `strip` also removes Unicode spaces.
- JSON and protobuf encoding: a fingerprint is the tuple of fields it encodes.
- Reading handlers (`GetAuction`, `SearchAuctions`, `WatchAuction`, `GetClusterInfo`), metrics, logging, timeouts,
  backoff, message texts, channels, environment parsing, user interface and deployment.
- Recovery polling of the auction service (`_wait_for_ready_primary`): its outcome is an input of each attempt.
