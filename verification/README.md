# Verified models of four ConsensusArena protocols

ConsensusArena implements several replicated-log protocols as single-threaded state machines
whose sends and replies are callbacks. This project models four of them in Dafny and proves what
they are for.

**FastPaxos** (`FastPaxos*.dfy`). Any floor(3n/4)+1 voters choose a value in one round; otherwise a
coordinator gathers frozen evidence from a majority, page by page, and proposes what the evidence
does not rule out. Over lossy, duplicating and reordering channels at most one value is ever chosen
per slot across the fast round and all classic epochs, the consistency panics named below never
fire, and any two replicas execute comparable sequences in which each request takes effect once.

**KCensus slot** (`KCensus*.dfy`). A proposer's value spreads along a planned schedule, and its
delegate commits once it knows that each witness knows enough acceptors. On a conflict voters freeze
and a census of a majority adopts whatever may have been committed that way. The proof rests on the
compatibility of requirement matrices, on the soundness of refutation and on the causality of
schedules. One property holds only under a condition, and the project proves which: a frozen voter
that accepted a proposal in the first state of its schedule does not yet know of itself, and the
census then leaves that voter out when it tests other proposers. With three proposers this lets two
voters decide differently, and `ThirdProposerMisleads` gives the run, step by step, over a plan that
meets every planning hypothesis; the comment of `KCensusThirdProposer` says how the program reaches
the early acceptance although messages wait for values they only name. `Sure` is the test a
coordinator could make before selecting: the evidence it holds rules out the proposers of all other
values. It is proved exact (`SafeExactlyWhenSure`): a selection is safe in every system that
satisfies the invariant and makes all the evidence true if and only if it passes. At most one
proposer is ever not ruled out, so a census that adopted it would always pass. Agreement is proved
for every run whose censuses pass, and for every run with at most two proposers in the slot.

**Bodega** (`Bodega*.dfy`). Paxos under rosters that name a leader and, per key, the responders that
answer reads locally under leases. Rosters supersede each other, leases are granted, renewed, revoked
and expire against one clock, late replies arrive after revocations. While a replica is stable, a
majority is in exactly its ballot, so nothing of a higher ballot is committed; a slot is decided once
across all ballots; and every local read that is answered reflects every write to its key that any
leader had committed when the read was submitted.

**EPaxos execution** (`EPaxos*.dfy`). An abortable, restartable depth-first traversal of the
dependency graph executes strongly connected components in place. Whatever roots are tried, whatever
is missing when a traversal gives up and whatever the budget, the executed sequence is right: nothing
is executed twice or before what it depends on, components are executed in sequence-number order, and
therefore any two replicas agree on every two instances of which one depends on the other.

## How the models are built

* A protocol is a set of handler functions from a replica and a message to a replica and messages,
  a system of replicas with a growing set of sent messages (loss, duplication and reordering come for
  free), and an inductive invariant proved step by step. Replicas crash and do not restart.
* Beside the handler functions stand classes with the program's fields and loops (`FastPaxosCore`,
  `KCensusSlot`, `KCensusRequirements`, `BodegaCore`, `EPaxosScheduler`); each method is proved against the function
  it implements, so that what runs of the model keep holds of runs of the objects.
* Where the program panics the handler carries on, and a `...Panics` predicate names the guard.
* Value identity is the request ID or the no-op in FastPaxos and the unique identifier in KCensus.
* Some messages carry a history annotation that receivers do not read: the accepted value in
  Accepted, the whole frozen evidence in a FastPaxos Promise, the end of a lease in Bodega lease
  messages. The commits a leader has made and those a read has seen at submission are kept as history.
* The schedule of a KCensus plan is a parameter. `GoodPlan` collects what plan validation and graph
  construction check (kcensus/requirements.go:51-67, kcensus/graph_plan.go:217-230): compatible
  requirements, causal growth of knowledge along messages, final-state adoption, voters proposing
  through themselves, no earlier commit state, and that a voter outside the quorum enters its final
  state on one message. The program approximates the last by counting states. `TwoHopIsGood` shows a
  family of plans, for every odd number of voters, that meets all of it. Graph states are named by
  position in their schedule instead of by planned time.

## Model

| member | source | states |
|---|---|---|
| Quorums.OwnerIsRemainder | fastpaxos/core.go:93 | the owner of an epoch or ballot, defined by stepping down n at a time, is the remainder the program computes |
| FastPaxosRecovery.SelectionExact | fastpaxos/recovery.go:87-130 | for every majority of responders and reports whose newest round is the fast one, at most one value can still have a fast quorum among reporters and non-responders, and if one can it is what is selected |
| FastPaxosRecovery.SelectionIsSafe | fastpaxos/recovery.go:87-130 | a value selected from a majority's frozen evidence conflicts with no value that any lower epoch has chosen or can still choose, and the selection does not panic |
| FastPaxosRecovery.RecoveryEvidence | fastpaxos/recovery.go:132-172 | pages assembled into snapshots are such evidence, although a recovered coordinator may have lowered its highest slot |
| FastPaxosSafety.Agreement | fastpaxos/core.go:232-334 | under the invariant at most one value is chosen per slot, by a fast quorum or a classic majority |
| FastPaxosAgreement.RunInv | fastpaxos/core.go:232-334 | the invariant holds after every step of every run |
| FastPaxosAgreement.AtMostOneChosen | fastpaxos/core.go:238-334 | in every run at most one value is chosen per slot over the fast round and all classic epochs |
| FastPaxosAgreement.DecisionsAgree | fastpaxos/core.go:188-207 | no two replicas ever record different decisions for a slot |
| FastPaxosAgreement.NoConflictingCommit | fastpaxos/core.go:190-192 | the panic on a conflicting decision never fires on a delivered commit |
| FastPaxosAgreement.NoEquivocation | fastpaxos/core.go:298-300 | the panic on coordinator equivocation never fires on a delivered proposal |
| FastPaxosAgreement.NoMixedEpoch | fastpaxos/recovery.go:117-119 | the panic on several classic values in one epoch never fires when a recovery completes |
| FastPaxosExecution.ExecutionsAgree | fastpaxos/execute.go:8-36 | of two replicas' executed logs one is a prefix of the other, and stored results of a request agree |
| FastPaxosExecution.ExecutedOnce | fastpaxos/execute.go:19-30 | a request takes effect at most once, though it may be decided in several slots, and only if decided |
| FastPaxosCore.CountSupport | fastpaxos/core.go:254-259 | the loop counts exactly the voters with the given value |
| FastPaxosCore.FindTop | fastpaxos/recovery.go:88-103 | in any order of the map, returns a decided report if there is one and else a newest report |
| FastPaxosCore.Gather | fastpaxos/recovery.go:104-113 | collects the supporters of each value of the newest round, or reports that the no-op is among them |
| FastPaxosCore.SelectValue | fastpaxos/recovery.go:88-130 | returns a value the selection rule allows, or panics only on two values in a classic epoch |
| FastPaxosCore.Core.ApplyDecided | fastpaxos/execute.go:8-36 | the loop executes decided known slots in order, each request once |
| FastPaxosCore.Core.LearnEntry | fastpaxos/core.go:188-207 | records the decision and its payload, then executes what became executable |
| FastPaxosCore.Core.ProposeRequest | fastpaxos/core.go:146-186 | takes the next slot and votes for the request there unless the slot has an acceptance |
| FastPaxosCore.Core.ReceiveVote | fastpaxos/core.go:238-273 | counts a voter once per slot and learns the value at a fast quorum |
| FastPaxosCore.Core.CollectReports | fastpaxos/recovery.go:47-69 | reports decision or else acceptance of every slot from the start to the highest, with known payloads |
| FastPaxosCore.Core.ReceivePrepare | fastpaxos/recovery.go:33-85 | freezes evidence once per epoch, answers with all its pages, and refuses lower epochs |
| FastPaxosCore.Core.StorePromise | fastpaxos/recovery.go:136-146 | stores a page once, ignoring pages that disagree with the first |
| FastPaxosCore.Core.CountSnapshots | fastpaxos/recovery.go:147-156 | finds who has answered in full and the highest slot among them |
| FastPaxosCore.Core.SelectAll | fastpaxos/recovery.go:184-186 | selects for every recovered slot from the reports of full answers |
| FastPaxosCore.Core.StartEpoch | fastpaxos/recovery.go:178-193 | gives each recovered slot a fresh proposal and leaves all other slots alone |
| FastPaxosCore.Core.ReceivePromise | fastpaxos/recovery.go:132-206 | stores a page, and at a majority of full answers starts the epoch with a valid recovery |
| FastPaxosCore.Core.FlushRequest | fastpaxos/core.go:209-230 | proposes a request in the next slot of the epoch |
| FastPaxosCore.Core.ReceiveAccept | fastpaxos/core.go:278-304 | accepts the owner's proposal unless a higher epoch was promised |
| FastPaxosCore.Core.ReceiveAccepted | fastpaxos/core.go:305-330 | a majority of acknowledgements decides the proposal of the current epoch |
| KCensusRequirements.QuorumOf | kcensus/requirements.go:14-22 | the witnesses with a non-empty requirement |
| KCensusRequirements.IsValid | kcensus/requirements.go:24-38 | accepts exactly the requirements with a voting majority whose witnesses know of themselves and of quorum members only |
| KCensusRequirements.AreCompatible | kcensus/requirements.go:40-49 | true exactly when more than f witnesses must know, for either requirement, of an acceptor in both quorums |
| KCensusRequirements.Validate | kcensus/requirements.go:51-67 | accepts exactly the matrices of valid, pairwise compatible requirements |
| KCensusTwoHop.TwoHopIsGood | kcensus/graph_plan.go:217-230 | two-hop schedules meet every planning hypothesis, for all voters and compatible routes |
| KCensusPlan.QuorumFacts | kcensus/graph_plan.go:212-220 | a proposer's commit quorum contains its requirement quorum, a majority of voters with the delegate |
| Quorums.NextRoundIsMultiple | kcensus/recovery.go:215-219 | the recovery round above a ballot is the one the program computes |
| KCensusHandlers.RecoveryBallotOwned | kcensus/recovery.go:213-220 | a recovery ballot is the voter's own and above every ballot it has used |
| KCensusCensus.RefutedIsBlocked | kcensus/recovery.go:431-447 | a proposer refuted by a true frozen report is never committed fast, then or later |
| KCensusCensus.UnknownIsBlocked | kcensus/recovery.go:421-426 | a proposer of which a majority census knows nothing is never committed fast |
| KCensusCensus.PromisedWitness | kcensus/requirements.go:40-49 | compatibility puts into every majority a witness with knowledge of an acceptor common to both quorums |
| KCensusCensus.OneRemains | kcensus/recovery.go:426-450 | a proposer left possible by the strict rule, which counts the reporting voter too, blocks every other proposer |
| KCensusCensus.CensusAdoption | kcensus/recovery.go:406-453 | a proposer that was or may be committed fast is known and possible in every majority census without classic acceptances, and every other one is refuted: always by the strict rule, by the program's rule with two proposers or aware voters |
| KCensusExact.PlacedReached | kcensus/graph.go:178-195 | voters are in the states of schedules in which true evidence, directly or by what the schedule tells, places them |
| KCensusExact.RuledOutExactly | kcensus/recovery.go:426-450 | evidence rules a proposer out precisely when it is blocked in every system of the invariant in which all of the evidence is true |
| KCensusExact.SafeExactlyWhenSure | kcensus/recovery.go:426-453 | a selection is safe in every system of the invariant in which all of the evidence is true if and only if the evidence rules out the proposers of all other values |
| KCensusExact.OneNotRuledOut | kcensus/recovery.go:426-450 | a majority census rules out all proposers but one at most |
| KCensusExact.ExactRuleIsSure | kcensus/recovery.go:423-453 | adopting the one that is not ruled out, in place of the first possible one, would be safe with any number of proposers |
| KCensusExact.AdoptedIsSure | kcensus/recovery.go:423-453 | with two proposers or aware voters whatever the program adopts passes the exact test |
| KCensusThirdProposer.ThirdProposerMisleads | kcensus/recovery.go:432-441 | without it adoption fails: a run in which one voter decides by a completed schedule and another, after a census, a different value |
| KCensusThirdProposer.ThePlanIsGood | kcensus/graph_plan.go:217-230 | the plan of that run meets every planning hypothesis |
| KCensusSafety.ChosenNotBlocked | kcensus/graph.go:228-234 | a completed schedule has its whole commit quorum in final states, so it is not blocked |
| KCensusSafety.Agreement | kcensus/core.go:440-451 | under the invariant no two values are chosen, by schedules or in ballots |
| KCensusSteps.ImpliedIsTrue | kcensus/graph.go:178-195 | what a scheduled message lets a voter infer about others is true of them |
| KCensusSteps.EnterSound | kcensus/graph.go:201-226 | on entering a state everything a voter then believes about acceptances and remote states is so |
| KCensusSpread.EmitOk | kcensus/graph.go:238-271 | a message without evidence is only sent by a voter that is where its schedule says |
| KCensusSpread.CommitsChosen | kcensus/graph.go:228-234 | a delegate that commits has completed its schedule |
| KCensusHandlers.AcceptorReady | kcensus/graph.go:74-94 | a voter outside the quorum that accepts is at once ready for its final state |
| KCensusAgreement.NewBallotSafe | kcensus/recovery.go:586-608 | without classic acceptances a census that passes the exact test selects a value safe in its ballot |
| KCensusAgreement.HighestSafe | kcensus/recovery.go:406-419 | the newest reported classic value is safe in the census ballot |
| KCensusAgreement.StepKeep | kcensus/core.go:665-761 | every step of every participant keeps the invariant, a census if it passes the exact test |
| KCensusRuns.RunInv | kcensus/core.go:488-761 | the invariant holds at every position of every run whose censuses pass the exact test |
| KCensusRuns.AtMostOneChosen | kcensus/core.go:440-451 | at most one value is chosen in a slot, fast or in any of the competing ballots |
| KCensusRuns.DecisionsAgree | kcensus/core.go:440-451 | no two voters decide differently, at whatever points of a run |
| KCensusRuns.PairDecisionsAgree | kcensus/core.go:440-451 | with at most two proposers that holds of every run without any condition on censuses |
| KCensusRuns.NoConflictingMessage | kcensus/core.go:448-450 | the panics on conflicting decisions and on a coordinator that changes its value never fire |
| KCensusRuns.ReportsAgree | kcensus/recovery.go:409-415 | a census never sees two values accepted in one ballot, nor two fast values of one proposer |
| KCensusRuns.OneFastValue | kcensus/graph.go:78-80 | the panic on a proposer that changes its fast value never fires |
| KCensusSlot.Slot.MergeReport | kcensus/recovery.go:487-520 | keeps the newer of two admissible reports and learns its proposer |
| KCensusSlot.Slot.ConflictLeader | kcensus/recovery.go:633-641 | the largest delegate among the participants |
| KCensusSlot.Slot.FreezeOnConflict | kcensus/recovery.go:610-620 | freezes with a promise to the conflict leader's first ballot |
| KCensusSlot.Slot.ReceiveValue | kcensus/graph.go:74-94 | accepts the only participant's value while unfrozen, and freezes at a second participant |
| KCensusSlot.Slot.InferReports | kcensus/graph.go:178-195 | merges what a scheduled message implies about every voter |
| KCensusSlot.Slot.ConsumeMessage | kcensus/graph.go:166-199 | takes in explicit evidence and freezes, or infers from the schedule |
| KCensusSlot.Slot.EmitMessages | kcensus/graph.go:238-271 | sends what a state owes, with all evidence if the voter has left the schedule |
| KCensusSlot.Slot.AdvanceSchedule | kcensus/graph.go:201-227 | enters every state whose messages have arrived |
| KCensusSlot.Slot.MayCommit | kcensus/core.go:428-438 | true exactly when the delegate's knowledge covers every witness's requirement |
| KCensusSlot.Slot.SettleSchedule | kcensus/graph.go:228-234 | commits when the schedule is complete and undisturbed |
| KCensusSlot.Slot.ReceiveSpread | kcensus/graph.go:108-164 | evidence of a conflict first, then the value, then every state that can be entered |
| KCensusSlot.Slot.ProposeValue | kcensus/graph.go:96-106 | accepts the voter's own value and starts its schedule |
| KCensusSlot.Slot.PromiseQuorum | kcensus/recovery.go:455-463 | true exactly when a majority of voters has promised the census ballot |
| KCensusSlot.Slot.IsPossible | kcensus/recovery.go:426-450 | true exactly when no frozen report refutes the proposer |
| KCensusSlot.Slot.AdoptValue | kcensus/recovery.go:406-453 | the newest classic value, else the value of the first possible proposer, else none |
| KCensusSlot.Slot.CompleteCensus | kcensus/recovery.go:586-608 | with a majority of promises selects the adopted value, or a new one when none has to be adopted |
| KCensusSlot.Slot.StartRecovery | kcensus/recovery.go:202-222 | begins a census in the voter's next own ballot |
| KCensusSlot.Slot.ReceivePrepare | kcensus/core.go:674-696 | freezes, promises and reports, and refuses lower ballots |
| KCensusSlot.Slot.ReceivePromise | kcensus/core.go:697-712 | learns the reported value and merges the report |
| KCensusSlot.Slot.ReceiveAccept | kcensus/core.go:713-735 | accepts the owner's value unless a higher ballot was promised |
| KCensusSlot.Slot.ReceiveAccepted | kcensus/core.go:736-750 | a majority of acceptances decides the selected value |
| KCensusSlot.Slot.ReceiveAbandon | kcensus/core.go:671-673 | freezes for the participants the sender knows of |
| KCensusSlot.Slot.ReceiveNack | kcensus/core.go:751-755 | freezes for the higher ballot |
| BodegaLeases.LeaseExclusion | bodega/core.go:195-212 | while a replica is stable a majority of grantors, itself among them, is in exactly its ballot, each with a threshold the replica has executed |
| BodegaLeases.GrantHolds | bodega/core.go:375-384 | a lease relied on is one its grantor has not let lapse: same ballot, same threshold, still in force |
| BodegaLeases.InstallWaits | bodega/recovery.go:68-72 | a lease in force keeps its grantor in its roster |
| BodegaLeaseSteps.LeaseInvStep | bodega/lease.go:7-42 | leases stay exclusive through renewals, revocations, delayed replies and superseding rosters |
| BodegaRosters.RosterInvStep | bodega/recovery.go:262-268 | a ballot has one roster, announced before anyone is in it |
| BodegaSafety.OneDecision | bodega/core.go:449-457 | under the invariant a slot is decided once, in whatever ballots |
| BodegaLeading.SelectedSafe | bodega/recovery.go:208-222 | the newest reported entry of a slot is safe in the new ballot, also where it is executed history that entered a log without a vote |
| BodegaLeading.SelectionSafe | bodega/recovery.go:208-235 | everything a new leader proposes again, no-ops in gaps included, conflicts with no lower ballot |
| BodegaLeading.ActionKept | bodega/core.go:304-433 | every step of every replica keeps the log invariant |
| BodegaReads.NoHigherCommit | bodega/core.go:195-212 | a write chosen by any leader is of the stable replica's ballot or lower, and if lower within its executed prefix |
| BodegaReads.FreshRead | bodega/core.go:522-534 | the slot a reader under authority waits for, or its prefix, covers every committed write to the key |
| BodegaRuns.RunInv | bodega/core.go:304-433 | roster, lease, log and read invariants hold at every position of every run |
| BodegaRuns.StableExcludes | bodega/core.go:195-212 | in every run a stable replica excludes choices in higher ballots |
| BodegaRuns.AtMostOneChosen | bodega/core.go:600-624 | in every run a slot is decided once |
| BodegaRuns.LogsAgree | bodega/execute.go:44-62 | committed and executed slots hold the same value at all replicas |
| BodegaRuns.NoConflict | bodega/core.go:449-459 | the panics on conflicting accepted values and changed committed values never fire, on delivered entries, on any of those a new leader proposes again, and on new proposals |
| BodegaRuns.ReadsAreFresh | bodega/local_read.go:37-79 | every local read answered reflects every write to its key committed before it was submitted; an answer ahead of execution is a decided write of the key |
| BodegaRuns.ExecutedAsCommitted | bodega/execute.go:44-62 | what replicas execute of the committed writes is what leaders committed |
| BodegaCore.RespondersByKey | bodega/defs.go:18-24 | the binary search finds the mask of the one range that holds the key, else the default, and always the leader |
| BodegaCore.Reindexed | bodega/core.go:487-504 | an index rebuilt from the log names the newest slot that writes each key |
| BodegaCore.LatestAdds | bodega/core.go:478-484 | one more entry raises the newest slot of the keys it writes and of no other |
| BodegaCore.Core.AcceptAt | bodega/core.go:449-485 | takes the entry, drops the mark of a changed value, and keeps both indexes what a search of the log finds |
| BodegaCore.Core.Mark | bodega/core.go:626-635 | marks a slot committed and keeps the index of committed writes |
| BodegaCore.Core.IsStable | bodega/core.go:195-212 | counts exactly the grantors whose lease holds and whose threshold is executed |
| BodegaCore.Core.HasReadAuthority | bodega/local_read.go:11-13 | true exactly when stable and, as a leader, prepared |
| BodegaCore.Core.ApplyCommitted | bodega/execute.go:44-47 | the prefix rises over committed slots up to the first that is not |
| BodegaCore.Core.CanInstall | bodega/recovery.go:64-72 | true exactly when a roster is pending and no granted lease is in force |
| BodegaCore.Core.InstallPending | bodega/recovery.go:64-119 | enters the pending roster with the highest slot as threshold and no votes, leases or held reads |
| BodegaCore.Core.ObserveRoster | bodega/recovery.go:50-62 | a newer valid roster ends read authority at once and is installed when leases allow |
| BodegaCore.Core.ReceiveLeaseReply | bodega/core.go:379-383 | a lease counts from its request, above the revoked floor only, and never shortens |
| BodegaCore.Core.ReceiveLeaseRevoke | bodega/lease.go:21-30 | gives up the sender's lease and raises the floor against delayed replies |
| BodegaCore.Core.ReceiveLeaseRevoked | bodega/lease.go:31-39 | a lease given up no longer holds back the pending roster |
| BodegaCore.Core.NewestEntries | bodega/recovery.go:208-222 | selects a newest reported entry for every reported slot |
| BodegaCore.Core.SelectValues | bodega/recovery.go:206-231 | the newest reported value of each slot up to the highest reported, the no-op in gaps |
| BodegaCore.Core.FinishPrepare | bodega/recovery.go:223-254 | accepts and proposes again a valid selection in the new ballot |
| BodegaCore.Core.RespondersVoted | bodega/core.go:609-619 | true exactly when every responder of every key written has accepted |
| BodegaCore.Core.CommitIfCovered | bodega/core.go:600-624 | commits exactly the slots with a majority and all responders |
| BodegaCore.Core.ReceiveAccepted | bodega/core.go:395-406 | counts a vote for the current ballot's entry and commits if it completes the cover |
| BodegaCore.Core.ProposeWrite | bodega/batch.go:81-106 | a write takes the next slot in the leader's ballot |
| BodegaCore.Core.NoticeSlot | bodega/core.go:566-578 | a notice commits a slot only with the current ballot's value |
| BodegaCore.Core.FollowNotices | bodega/core.go:589-597 | commits what notices cover from the prefix up to the first gap, and executes it |
| BodegaCore.Core.ReceiveNotice | bodega/core.go:580-598 | takes note of a decided prefix and slot and follows the notices |
| BodegaCore.Core.ReceiveAccept | bodega/core.go:388-394 | accepts the leader's proposal, votes, and applies pending notices |
| BodegaCore.Core.ReceiveCommittedEntry | bodega/recovery.go:366-376 | takes executed history into the log under the current ballot and executes it |
| BodegaCore.Core.SlotToRead | bodega/core.go:523-530 | the newest accepted write of the key for a responder, the newest committed one for the leader |
| EPaxosOrder.OrdersAgree | epaxos/execute.go:128-154 | any two right orders agree on every two instances of which one depends on the other |
| EPaxosOrder.SameSequence | epaxos/execute.go:128-154 | replicas that executed the same members of an interfering set executed them in the same sequence |
| EPaxosOrder.ComponentKeepsOrder | epaxos/execute.go:124-152 | executing a sorted component whose dependencies are executed keeps an order right |
| EPaxosOrder.PrefixReached | epaxos/execute.go:82-85 | following only the newest dependency of a row reaches the whole prefix it stands for |
| EPaxosTraversal.ComponentFound | epaxos/execute.go:124-126 | when bound and number coincide, the stack from there on is strongly connected and depends on nothing below |
| EPaxosTraversal.HangingJoins | epaxos/execute.go:109-115 | a child that hangs on the stack leaves its component reachable from and to its parent |
| EPaxosScheduler.SortNodes | epaxos/execute.go:128-129 | the same instances by sequence number, row and position |
| EPaxosScheduler.Scheduler.ExecuteAll | epaxos/execute.go:130-151 | executes the listed instances in order and marks exactly them |
| EPaxosScheduler.Scheduler.Strongconnect | epaxos/execute.go:59-157 | executes the component of an instance, or leaves it hanging on the stack, or stops at something missing; what is executed stays in a right order in every case |
| EPaxosScheduler.Scheduler.Follow | epaxos/execute.go:80-121 | explores one row: executed, missing, unnumbered or on the stack |
| EPaxosScheduler.Scheduler.FindSCC | epaxos/execute.go:46-57 | executes the root, or stops; either way nothing stays numbered |
| EPaxosScheduler.Scheduler.ExecuteCommand | epaxos/execute.go:27-44 | succeeds if and only if nothing the instance depends on is missing, and then it has been executed |
| EPaxosScheduler.Scheduler.Apply | epaxos/execute.go:173-195 | in a pass every row rises to its end, to an instance from which something missing is reached, or by half the budget at least; all up to there is executed and the order stays right |

## Left out

- FastPaxosCore.Core.ReceiveAccept: does not model the panic "accept contradicts chosen" (fastpaxos/core.go:295-297), which needs loss-free ordered channels.
- FastPaxosCore.Core.ProposeRequest: does not model the window that sends further requests to a classic epoch (fastpaxos/core.go:147-153), nor votes deferred until a payload arrives (fastpaxos/core.go:172-177), which a replica that only votes for requests it proposes never casts.
- FastPaxosCore.Core.FlushRequest: takes one request a call; the queue, the page size and the window of the loop (fastpaxos/core.go:214) are left out.
- FastPaxosCore.Core.ReceiveVote: does not model the stall flag, which only prompts an election.
- FastPaxos timers, heartbeats as failure detection and the repair cursor: any known request may be proposed and any slot repaired at any time, which allows more runs than the program.
- FastPaxos messages with several entries are modelled as their entries delivered one after the other.
- KCensusTwoHop.TwoHopIsGood: is about one family of schedules, not about the graphs the program builds from latencies.
- KCensusCensus.CensusAdoption: refutes every other proposer by the program's own rule only with two proposers or aware voters; for three it is false, by the run of ThirdProposerMisleads.
- KCensusAgreement.NewBallotSafe: holds of censuses that pass the exact test; without the test it is false, by the same run.
- KCensusAgreement.StepKeep: is about steps whose census, if any, passes the exact test, for the same reason.
- KCensusRuns.RunInv: holds of runs whose censuses pass the exact test, for the same reason; one slot, without reads, checkpoints, the executed prefix and the reuse of values across slots.
- KCensusRuns.AtMostOneChosen: holds of the same runs, and is false of the run of ThirdProposerMisleads.
- KCensusRuns.DecisionsAgree: holds of the same runs, and is false of the run of ThirdProposerMisleads.
- KCensusRuns.PairDecisionsAgree: holds with at most two proposers in the slot; with three it is false.
- KCensusRuns.NoConflictingMessage: holds of the runs of RunInv.
- KCensusRuns.ReportsAgree: holds of the runs of RunInv.
- KCensusRuns.OneFastValue: holds of the runs of RunInv.
- KCensusSlot.Slot.ReceiveSpread: does not model messages that wait for a payload; a message is delivered once its value is known.
- KCensusSlot.Slot.ReceivePromise: does not go on to complete the census, which is a call of its own.
- KCensusSlot.Slot.CompleteCensus: does not model how a new value is batched from pending requests; it is a parameter.
- KCensus planning (candidate search, routing, graph construction): the plan is a parameter and `GoodPlan` states what planning must establish.
- EPaxos agreement on commands, sequence numbers and dependencies: taken as given by `Graph`; its recovery has limitations the program documents.
- EPaxosScheduler.Scheduler.ExecuteAll: does not model replies and the state machine; the order of execution stands for both.
- EPaxosScheduler.Scheduler.Apply: does not model the timers that a missing instance starts.
- BodegaRuns.ReadsAreFresh: does not use the guards on fresh slots and on the read prefix (bodega/local_read.go:42), which allows more reads than the program; that an answer ahead of execution equals in-order execution with deduplication is not stated.
- BodegaCore.Core.FinishPrepare: does not model snapshots sent in chunks; a snapshot arrives whole.
- BodegaCore.Core.ProposeWrite: takes a write that has been admitted; admission, requests in flight and batches are left out.
- Bodega log compaction, failure detection, request deduplication and retries.
- CURP, the KCensus planner and its routing, KCensus reads, checkpoints and completion intervals.
- Wire formats, transports, timers, configuration, measurement.
