# LibPaxos2: agreement, the leader's table, the learner's ring, batching and write-ahead

LibPaxos2 is an atomic broadcast: many instances of Lamport's Paxos ("Paxos Made Simple", sections
2.2, 2.3 and 3) run side by side, and learners deliver the chosen values in instance order. This
project models its acceptors, proposers and learners, the leader that drives them, and the way
their messages are packed, stored and sent, and proves what the protocol is for.

Check everything with `dafny verify dfyconfig.toml`.

## How it is built

Small files state what one handler does to one thing on values: `AcceptorSpec` (a stored record),
`SlotSpec` (a slot of the leader's table), `LearnerSpec` (a learner over an unbounded map),
`LeaderSpec` (the leader's table), `WriteAhead` (an acceptor's log and messages), `SendBuffer`
(messages as lists of records) and `Wire` (records as bytes).

- **The protocol.** `Consensus` is a step system over those functions: any number of acceptors,
  proposers, learners and instances, any leader changes (several leaders at once included), and a
  network that loses, delays, reorders and, if so configured, duplicates. `ConsensusInvariant`,
  `ConsensusCarries`, `AcceptorSteps`, `ProposerSteps`, `ProposalSteps`, `LearnerSteps`,
  `FinalValueSteps` and `Safety` prove the invariant; `AtomicBroadcast` states the results.
- **The leader.** `LeaderInvariant`, `LeaderSteps` and `LeaderRuns` keep the table in order on every
  run. `LeaderEffects`, `LeaderRequests` and `LeaderReports` say of each handler what it does to the
  slots of the window, the pending list, the messages and the clients, without going by way of how
  it does it, and `LeaderBallots` what ballots a leadership uses. `LeaderBooks` says what becomes of
  the clients' values and of the counters on runs, `LeaderScenes` gives the runs on which the code
  as written goes wrong, and `LeaderOverrun` says what still holds of a leader that deliveries have
  overtaken.
- **Acceptors and learners.** `AcceptorAnswers` says which requests an acceptor answers and with
  what, `LearnerHistory` what a learner has kept of the acks it was sent, and `HoleDetection` what
  it asks for again. `WireLayout` says where the fields of a record stand on the wire.
- **The programs.** `RingLearner`, `LeaderTable`, `PendingList`, `SendBuffer.Sender` and
  `AcceptorServer` are classes with the fields, arrays and loops of the source. Each method equals
  the function that specifies it.
- **The connection.** `LeaderRefines` and `AcceptorRefines` prove that every handler of the leader
  and of the acceptor is a sequence of protocol steps; a learner of the protocol is the very
  function the ring learner implements. `Deployment` puts the programs on one network and proves
  that every run of them, crashes of any process included, is a run of the protocol, so that
  agreement and delivery in one order hold of the programs. `DeploymentReports` says what clients
  are told on those runs and what gets onto the network, and `BroadcastScene` gives runs on which a
  value comes all the way, and comes back after a restart.

## The code and its comments

In seven places the code does something else than its comments or names say. Each is a flag of
`Messages.Repairs`; none set is the code as written.

| flag | where | as written | as the comments say |
|---|---|---|---|
| acceptGuard | lib/acceptor.c:47 | drops an accept above the stored ballot | drops one below it |
| countDistinct | lib/proposer.c:124, 130 | compares instead of shifting, and clears the bits | remembers who has promised |
| restartForgets | lib/proposer_leader.c:427-433 | keeps the promises of the earlier phase 1 | starts from nothing |
| checkIid | lib/proposer.c:191-202 | credits a promise to whatever instance has the slot | only to its own |
| groupByVote | lib/learner.c:111, 175 | groups acks by ballot | by the ballot of the vote |
| pushBack | lib/proposer_leader.c:247-275 | a slot with a value for which phase 1 finds another takes the second branch and loses its value | lines 258-275 are reached: the value goes back to the list |
| countOff | lib/proposer_leader.c:468-470 | a ready slot that is delivered stays in ready_count | it is taken off |

`AtomicBroadcast.AgreementExactlyWhenSound` says which of them agreement needs, together with what
the environment may do: all but countDistinct always, countDistinct (and no proposer elected twice)
when the network may duplicate promises, and no empty values, which the code cannot tell from no
value. Each "only if" is a concrete run in `Violations`. Storing delivered values
(ACCEPTOR_UPDATE_ON_DELIVER) makes no difference to agreement.

The last two are about the leader's books, for any setting of the others.
`LeaderBooks.ValuesConserved` says exactly on which runs every client value stays pending, assigned
or reported; `LeaderScenes.ValueLost` is a run of the code as written that loses one; and with the
branch in reach (`LeaderBooks.PushingBackConserves`) only a step down can still do so, when it finds
a value in an instance known to be closed (lib/proposer_leader.c:577-588).
`LeaderBooks.CountersOnRuns` says on which runs ready_count is exact, `LeaderScenes.LeaderStarves`
is a run after which the leader never opens an instance again, and `LeaderBooks.CountingOffIsExact`
is the count repaired.

Other places where the model follows the code against what its comments suggest:

- lib/proposer_leader.c:464-474: a delivery beyond the highest open instance returns before the
  frontier moves, after which the table is no longer in order (agreement does not depend on it).
- lib/proposer_values_handler.c:129: the pending list takes 51 values, not 50.
- lib/udp_receiver.c:154-158: the comparison with the sum of the record sizes stands after the
  default branch of the switch and is never reached.
- libpaxos.h:12: the largest value offered to clients leaves 40 bytes for headers; the records that
  carry a value need 44 or 52, so such a value does not fit a message (the condition is
  `SendBuffer.FitsAlone`).

## Reading the model

In `Deployment` the learner a proposer runs on has the proposer's number. When a process starts
again, what its learner had delivered stays on record under an unused number, so agreement also
covers what a learner delivered before and after.

Clocks, random events and the oracle are inputs: which deadlines have passed, which instances the
learner has closed, and who leads may be anything. The source does not keep these histories: `heard`
in a slot, the votes and issues of the protocol state, the log marks of an acceptor, and in the
leader's table `staleReady`, `taken`, `notified` (clients told of success), `failed` (clients told
of failure) and `lost`. The asserts of the source are asserts in the classes, or, where they can
fail, conditions (`LeaderRuns.Survives`), which hold on every run within the bound of
`LeaderRuns.RunsSurvive`.

## Model

| member | source | states |
|---|---|---|
| Deployment.ProgramsAgree | lib/learner.c:161-206 | in a sound deployment of the programs themselves, on every run of handlers, elections, timeouts and crashes of any process, no two learners, nor one before and after it is started again, settle on different values |
| Deployment.ProgramsDeliverInOrder | lib/learner.c:210-234 | and of the values any two of them have delivered one sequence is a prefix of the other, without gaps |
| Deployment.EventShows | lib/acceptor.c:152-264 | whatever one program does, the protocol can follow: tables, logs, windows and network stay those of a reachable state |
| Deployment.RunShows | lib/proposer_leader.c:100-593 | so does every run |
| Deployment.WithinFromStart | lib/proposer_leader.c:118-350 | while leaders are told only of instances they opened and every backlog of closed instances leaves the ring room for the two windows, no assert of a leader fails and every table stays in order, so all of this holds of such runs |
| Deployment.RebootShows | lib/proposer_leader.c:513-560 | a proposer and learner that start again from nothing are to the protocol a leader that has stepped down and a new learner |
| Deployment.CrashShows | lib/acceptor_stable_storage.c:304-321 | a crash of an acceptor is nothing to the protocol |
| Deployment.CutShows | lib/acceptor.c:152-264 | a crash inside a handler is to the protocol the first part of its batch |
| Interruption.CrashAnywhere | lib/udp_sendbuf.c:110-117 | wherever a crash strikes inside a handler, the committed store is that of some first part of the batch, and no message that is out tells of more |
| Interruption.NextStands | lib/udp_sendbuf.c:110-117 | a split commits every request up to the one that did not fit |
| Deployment.AcksMayArrive | lib/learner.c:306-313 | on every run an ack on the network may be handled by any learner |
| DeploymentReports.SuccessIsDelivery | lib/proposer_leader.c:483-492 | on every run of the programs, through elections, crashes and restarts, the clients a proposer has told of success are for each value no more than the instances its own learner delivered with that value |
| DeploymentReports.LosersWait | lib/proposer_leader.c:493-499 | and on every run a value that loses its instance on delivery is pending again or out for a later one |
| DeploymentReports.EverythingIsPosted | lib/udp_sendbuf.c:244-266 | on every run every request in a proposer's table and every ack in an acceptor's messages is on the network |
| DeploymentReports.HandlerPosts | lib/acceptor.c:152-264 | a handler puts on the network exactly the promises and acks of the messages it sends |
| DeploymentReports.CutPosts | lib/udp_sendbuf.c:110-117 | and so does one that a crash cuts short |
| BroadcastScene.ValueComesAllTheWay | lib/proposer_leader.c:100-593 | for any number of acceptors, any proposer and any value there is a run from the start of the programs on which the value submitted is the one delivered and its client is told so |
| BroadcastScene.LearnerCatchesUp | lib/acceptor.c:235-264 | and one on which the learner then starts again from nothing and gets the value back from the repeats of a quorum |
| BroadcastScene.OneAcceptorIsEnough | lib/acceptor.c:314-335 | or, where acceptors store delivered values, from the repeat of a single one |
| AtomicBroadcast.AgreementExactlyWhenSound | lib/acceptor.c:45-98 | with three acceptors every run agrees exactly when the deployment is sound: four of the written tests repaired, no empty values, and, where the network may duplicate promises, distinct ones counted and no proposer elected twice |
| Safety.SoundAgreement | lib/learner.c:161-206 | in every reachable state of a sound deployment no two learners hold different final values for an instance, for any number of acceptors, proposers and instances |
| AtomicBroadcast.RequestsFollowHighestVote | lib/proposer_leader.c:239-284 | P2c of "Paxos Made Simple", section 2.2: behind every accept request there is a quorum such that the request carries the value its members accepted in their highest lower ballot, if any; it is the quorum of the promises counted unless acceptors store delivered values |
| AtomicBroadcast.RequestsRestOnQuorums | lib/proposer.c:204-215 | every accept request ever sent rests on promises of a quorum of distinct acceptors: always with a working bit vector, and with either count unless acceptors store delivered values |
| AtomicBroadcast.PromisesAgree | lib/proposer.c:142-166 | any two promises ever sent for an instance that report a value accepted in one ballot report the same value |
| AtomicBroadcast.ArrivalOrderIrrelevant | lib/proposer.c:142-166 | so the value phase 1 finds among promises of the protocol does not depend on their order of arrival |
| AtomicBroadcast.OneValuePerBallotAlways | lib/proposer.c:75-76 | two accept requests for one instance and ballot carry one value, although a re-elected proposer starts again at its first ballot |
| AtomicBroadcast.LearnersInOrder | lib/learner.c:292-334 | every learner keeps its window in order on every run, sound or not |
| AtomicBroadcast.DeliversWithoutGaps | lib/learner.c:210-234 | a learner has delivered exactly the instances below its current one, each once and in order |
| AtomicBroadcast.DeliveriesAreOrdered | lib/learner.c:210-234 | of the value sequences delivered by any two learners one is a prefix of the other |
| Safety.StepKeeps | lib/acceptor.c:45-98 | every step of every participant keeps the protocol invariant |
| Safety.RunKeeps | lib/acceptor.c:45-98 | so does every run |
| FinalValueSteps.SaveFinalKeeps | lib/acceptor.c:314-335 | overwriting a record with the delivered value keeps the invariant, although it may lower the stored ballot and a later accept may clear is_final |
| FinalValueSteps.ChosenIsDecided | lib/acceptor.c:314-335 | a delivered value is the one every later request must carry |
| ProposalSteps.ProposeSafe | lib/proposer_leader.c:239-284 | sending an accept request keeps the proposals safe: below it a quorum has voted for nothing else |
| ProposalSteps.BallotUnused | lib/proposer.c:75-76 | a slot whose phase 1 is done in a ballot is the only one ever to have sent a request in it |
| ProposerSteps.CountedGood | lib/proposer.c:121-222 | crediting a promise keeps the slot an exact summary of the votes of those heard |
| ProposerSteps.RestartProposers | lib/proposer_leader.c:427-430 | going back to phase 1 keeps every proposer slot good, once it forgets what it had counted |
| AcceptorSteps.PreparePromise | lib/acceptor.c:74-98 | a promise says all there is to say about the acceptor's votes below its ballot |
| AcceptorSteps.PrepareOnePromise | lib/acceptor.c:74-80 | an acceptor promises a ballot at most once |
| AcceptorSteps.AcceptSafety | lib/acceptor.c:45-68 | accepting keeps all proposals safe |
| LearnerSteps.CheckJustified | lib/learner.c:161-206 | what a learner settles on has been voted for by a quorum in one ballot |
| LearnerSteps.ChosenOnce | lib/learner.c:161-206 | values voted for by quorums in two ballots are equal |
| Violations.LateRequestOverwrites | lib/acceptor.c:47 | a run that disagrees because an accept below the promise is taken |
| Violations.RestartRemembers | lib/proposer_leader.c:427-433 | a run that disagrees because promises of an earlier ballot stay counted |
| Violations.OtherInstanceCounts | lib/proposer.c:191-202 | a run that disagrees because an old promise is credited to the instance that reuses its slot |
| Violations.RepeatedAcksMix | lib/learner.c:175 | a run that disagrees because repeated acks carry a ballot raised after the vote |
| Violations.EmptyValueForgotten | lib/proposer.c:135 | a run that disagrees because an empty value passes for no value |
| Violations.DuplicatesCounted | lib/proposer.c:124-131 | a run that disagrees because one promise is counted twice |
| Violations.BallotUsedTwice | lib/proposer.c:75-76 | a run that disagrees because a re-elected proposer reuses a ballot and its duplicated promises |
| PhaseOne.ReadyOnQuorum | lib/proposer.c:190-222 | with a working bit vector a slot is ready exactly when a quorum of distinct acceptors has promised its ballot |
| PhaseOne.ReadyAsWritten | lib/proposer.c:124-131 | as written any quorum of messages makes it ready, and they stand for a quorum of acceptors exactly when no acceptor is among them twice |
| PhaseOne.CollectRecords | lib/proposer.c:121-222 | after any sequence of promises a slot counts exactly those credited to it and holds the value of their highest value ballot; no value exactly when that ballot is 0 |
| PhaseOne.OneMore | lib/proposer.c:121-166 | one more promise is recorded as one more |
| PhaseOne.OrderIrrelevant | lib/proposer.c:142-166 | the value found is independent of the order of arrival exactly when the promises of the highest value ballot agree |
| PhaseOne.RestartRemembersCount | lib/proposer_leader.c:427-430 | after a phase 2 timeout one promise is enough as written, and is not once the count is reset |
| PhaseOne.RestartsStart | lib/proposer_leader.c:120-134 | a phase 1 that timed out starts from nothing in its ballot plus 10, and so does one after phase 2 once repaired |
| PhaseOne.StalePromisesIgnored | lib/proposer.c:198-202 | after either timeout no promise of the slot's earlier ballots counts, whatever number of them still arrives |
| LearnerSpec.IncrementalTestIsFullRescan | lib/learner.c:116-206 | testing only the group of the ack just stored closes a slot exactly when a rescan of all acks would; an open slot never holds a quorum of any group |
| LearnerSpec.ScanFinds | lib/learner.c:161-188 | the loop finds a final ack of the group or counts the group exactly |
| LearnerSpec.CheckCloses | lib/learner.c:161-206 | when an instance is closed and with which ack |
| LearnerSpec.StoringDecides | lib/learner.c:104-156 | one more ack can complete no group but its own |
| LearnerSpec.DeliveryIsMaximal | lib/learner.c:210-234 | the delivery loop ends having delivered the longest closed run from the current instance and nothing else, and the next instance is not closed |
| LearnerSpec.DeliverOneShrinks | lib/learner.c:216-232 | each turn of the loop leaves fewer slots in use, so it terminates |
| LearnerSpec.HandleAckKeepsOrder | lib/learner.c:292-334 | every message keeps the learner in order with its current instance open |
| LearnerSpec.HandleAckSettles | lib/learner.c:292-334 | a message settles at most its own instance; every other outcome stays |
| HoleDetection.HoleExistsExactly | lib/learner.c:262-284 | a closed instance waits for an earlier one exactly when highest_iid_closed is beyond current_iid |
| HoleDetection.HolesAreRequested | lib/learner.c:239-284 | a learner that is not lagging requests exactly the open instances up to the highest closed one, the current one among them exactly when there is a hole |
| HoleDetection.LaggingRequestsComplete | lib/learner.c:269-273 | a lagging learner misses no open instance exactly when no closed one lies more than a window below the highest seen |
| HoleDetection.OwnerSharesSlot | lib/learner.c:246-249 | which instance of the window owns the slot looked at |
| RingLearner.Learner.IsClosed | lib/learner.c:80-83 | learner_is_closed agrees with the unbounded map |
| RingLearner.Learner.UpdateState | lib/learner.c:116-156 | changes one slot as the specification says; the assert on its iid holds |
| RingLearner.Learner.CheckQuorum | lib/learner.c:161-206 | the loop with its early exit computes the specified scan, and keeps the highest closed instance |
| RingLearner.Learner.DeliverNextClosed | lib/learner.c:210-234 | the ring after the loop is the map after delivering the maximal run, and the loop terminates |
| RingLearner.Learner.HandleAcceptAck | lib/learner.c:292-334 | the ring behaves as a map restricted to the window |
| RingLearner.Learner.HandleAcceptAckBatch | lib/learner.c:337-350 | a batch is its acks one after the other |
| RingLearner.Learner.SendRepeatRequest | lib/learner.c:239-255 | the requests sent, in order |
| RingLearner.Learner.HoleCheck | lib/learner.c:262-284 | the requests of lea_hole_check |
| RingLearner.OpenAdvance | lib/learner.c:225-231 | when the window slides the instance that enters it finds its slot empty |
| RingLearner.SlotHolds | include/libpaxos_priv.h:98 | the slot of an instance of the window holds that instance or nothing |
| LeaderRefines.HandleIsRun | lib/proposer_leader.c:100-593 | whatever event a proposer handles without a failing assert, also when it is overtaken by deliveries of instances it never opened, protocol steps of its own lead to a reachable state in which it has the resulting table and all it sent is on the network |
| LeaderRefines.NotMine | lib/proposer.c:198-202 | a promise of another proposer's ballot changes nothing |
| LeaderOverrun.VisitSane | lib/proposer_leader.c:298-315 | in any table a run can reach, overtaken or not, the asserts on the slots a loop visits hold and the visit keeps what still holds of it |
| LeaderOverrun.ShutdownSane | lib/proposer_leader.c:574-588 | what a step down leaves in the table, when it was overtaken, is only of instances delivered before |
| LeaderOverrun.SkipSane | lib/proposer_leader.c:464-466 | a delivery that finds no slot of its instance keeps what still holds of the table |
| LeaderRefines.RequestsNeverClash | lib/proposer_leader.c:281 | in a sound deployment no two tables ever sent different values for one instance and ballot |
| LeaderRefines.EachIsRun | lib/proposer_leader.c:113-144 | a loop over the window is a run of the protocol |
| LeaderRefines.BatchIsRun | lib/proposer.c:225-259 | so is a batch of promises with the phase 2s it sets off |
| LeaderRefines.DeliverIsRun | lib/proposer_leader.c:456-505 | and a delivery with the instances it opens |
| LeaderRuns.RunsKeepOrder | lib/proposer_leader.c:100-593 | the table invariant holds on every run through any number of elections: window positions, counters, and a ledger of every copy of every client value |
| LeaderRuns.HandleKeeps | lib/proposer_leader.c:100-593 | every event keeps it |
| LeaderRuns.DeliverExactly | lib/proposer_leader.c:464-474 | a delivery keeps the leader in order exactly when it is of an instance the leader has opened |
| LeaderRuns.ShutdownKeeps | lib/proposer_leader.c:564-593 | after stepping down every slot and the pending list are empty and every value is accounted for |
| LeaderRuns.PromoteKeeps | lib/proposer_leader.c:513-560 | an election starts with the invariant and a full phase 1 window |
| LeaderRuns.WindowIsBounded | lib/proposer_leader.c:152-199 | at most four instances are in phase 2, and at most 304 of the window are unfinished |
| LeaderRuns.RunsSurvive | lib/proposer_leader.c:118-350 | on every run on which the closed but undelivered backlog is at most the ring less 304 before each event no assert of the leader fails, and the table stays in order |
| LeaderRuns.SurvivesWithRoom | lib/proposer_leader.c:176 | the same for one event, whatever it is |
| LeaderRuns.SurvivesPhase2 | lib/proposer_leader.c:349-350 | the asserts on phase 2 hold as soon as one slot is free or the phase 1 window is full |
| LeaderSteps.OpenNewIsSafe | lib/proposer_leader.c:347-350 | the loop never meets an assigned instance if a slot is free, or if more instances are open in phase 1 or 2 than phase 2 will take |
| LeaderSteps.RoomExactly | lib/proposer_leader.c:170-176 | the slots about to be opened are empty exactly when they fit in the ring |
| LeaderSteps.UnassignedExactly | lib/proposer_leader.c:349-350 | the next instance has no value exactly when the window does not span the whole ring |
| LeaderSteps.EachKeeps | lib/proposer_leader.c:298-315 | a loop over the window keeps the table and leaves no slot waiting for a phase 2 it could have |
| LeaderSteps.OpenP1Keeps | lib/proposer_leader.c:152-199 | opening instances fills the phase 1 window and no more |
| LeaderSteps.OpenP1Fills | lib/proposer_leader.c:153-196 | a phase 1 window less than half full is filled up, any other left alone |
| LeaderSteps.OpenNewIsMaximal | lib/proposer_leader.c:334-386 | afterwards more instances than the threshold are in phase 2, or the next one is not ready or has no value |
| LeaderSteps.ExecuteNextKeeps | lib/proposer_leader.c:344-375 | assigning a value to the next instance moves the frontier and keeps the table |
| LeaderSteps.ExecuteConserves | lib/proposer_leader.c:241-277 | starting a phase 2 loses a client's value exactly when the slot had one, phase 1 found another and the branch order is as written |
| LeaderSteps.ExecuteKeepsLedger | lib/proposer_leader.c:239-284 | it keeps every copy of every value accounted for |
| LeaderRuns.ReleaseConserves | lib/proposer_leader.c:483-499 | a delivery loses nothing: the value is reported or goes back to the list |
| LeaderRuns.DropConserves | lib/proposer_leader.c:577-588 | stepping down loses the value of a slot exactly when its instance is known to be closed |
| LeaderBooks.ValuesConserved | lib/proposer_leader.c:239-593 | conservation on runs: after any run every value taken is pending, assigned or reported, as often as it was taken, exactly when no phase 2 on the way displaced one under the written order and no step down found one in a closed instance |
| LeaderBooks.EventLost | lib/proposer_leader.c:247-252 | which events lose a value, told from the table before their loop |
| LeaderBooks.PushingBackConserves | lib/proposer_leader.c:269-275 | with the last branch in reach no run without a step down loses a value |
| LeaderScenes.ValueLost | lib/proposer_leader.c:247-252 | a run of the code as written, without a step down, that loses a client's value |
| LeaderBooks.DeliveryCountsReady | lib/proposer_leader.c:468-481 | a delivery leaves an exact ready_count exact exactly when the delivered slot was not ready (or is taken off) |
| LeaderBooks.CountersOnRuns | lib/proposer_leader.c:468-481 | on every run pending_count and open_count are exact, and ready_count is exactly when no ready slot was delivered since the last election |
| LeaderBooks.CountingOffIsExact | lib/proposer_leader.c:468-470 | taken off on delivery, ready_count is exact on every run |
| LeaderBooks.BallotsAreOwn | lib/proposer.c:75-76 | on every run every request a proposer sends has a ballot that is its own id modulo MAX_N_OF_PROPOSERS |
| LeaderScenes.ManyStale | lib/proposer_leader.c:468-470 | a run of the code as written on which ready_count is too large by any number below the window |
| LeaderScenes.LeaderStarves | lib/proposer_leader.c:153-161 | a run of the code as written from which on, as long as it leads, the leader never opens another instance |
| LeaderScenes.LeaderOvertaken | lib/proposer_leader.c:464-474 | a run of the code as written that ends with every open instance delivered and none ever to be opened, where the next delivery puts the table out of order |
| LeaderRuns.StaleCountStopsRuns | lib/proposer_leader.c:153-161 | once half a window of ready slots has been delivered, no run without a new election opens another instance |
| LeaderInvariant.CountersMove | lib/proposer.c:215-217 | the counters still count after one slot has changed along with them |
| LeaderEffects.P1CheckDoes | lib/proposer_leader.c:100-226 | the phase 1 check moves every expired instance of the window to its ballot plus 10 with nothing counted, touches no other, fills a window of less than 150 up to 300 with new instances in the first ballot, and sends the prepare requests of the two in that order and no others |
| LeaderEffects.ElectionDoes | lib/proposer_leader.c:513-560 | a new leader starts every counter from nothing, opens 300 instances from the current one on and sends a prepare request for each; no slot in use is touched |
| LeaderRequests.OpenNewDoes | lib/proposer_leader.c:328-386 | with at most two instances in phase 2 the next ones go out in order, each with the value phase 1 found or the next of the pending list, until four are in phase 2, the next is not ready, or there is no value; with more, nothing changes |
| LeaderRequests.P2CheckDoes | lib/proposer_leader.c:389-449 | the phase 2 check completes every closed instance in phase 2 and takes it off open_count, sends every other expired one back to phase 1 in its ballot plus 10 with a prepare request, leaves the rest of the window as it is, and then opens what it can |
| LeaderRequests.BatchDoes | lib/proposer.c:225-259 | once promises have made some instance ready, every ready one below the frontier is sent out again with the value found or its own, nothing else is, and then new ones are opened |
| LeaderRequests.PromisesCollect | lib/proposer.c:225-259 | every slot records exactly the promises of a batch that fall on it, in order, and nothing but slots and the two counters of phase 1 changes |
| LeaderReports.HandleTells | lib/proposer_leader.c:483-492 | whatever the event, the clients told of success grow by exactly the delivered value when the leader had assigned that value to the instance delivered, and by nothing otherwise |
| LeaderReports.DeliverDoes | lib/proposer.c:172-184 | a delivery clears the slot of its instance, puts a value that lost it at the head of the list, takes the slot off the counters and opens what it can; where there is no such slot it only moves on |
| LeaderReports.DisplacedWaits | lib/proposer_leader.c:493-499 | a value whose instance was decided otherwise is pending again, or out for a later instance |
| LeaderReports.RunsTellDelivered | lib/proposer_leader.c:483-492 | on every run every value whose client is told of success was delivered on it |
| LeaderReports.SubmitDoes | lib/proposer_values_handler.c:124-153 | the list takes a value exactly when it holds at most 50, at its end |
| LeaderReports.ShutdownTells | lib/proposer_leader.c:564-593 | a step down tells of failure exactly the clients of values assigned to instances not known to be closed and of those pending, and leaves an empty window and list |
| LeaderReports.HandleMoves | lib/proposer.c:172-184 | the current instance moves with each delivery and with nothing else |
| LeaderBallots.LeadershipRises | lib/proposer_leader.c:120-134 | law of runs: between two elections each prepare request sent for an instance has a higher ballot than all earlier ones for it |
| LeaderTable.EnqueueBoth | lib/proposer_values_handler.c:124-153 | the leader's pending list takes and refuses exactly what the linked list does, and holds the same values after |
| LeaderTable.Leader.CheckP1Pending | lib/proposer_leader.c:100-148 | the loop retries exactly the expired slots; its assert holds |
| LeaderTable.Leader.OpenInstancesP1 | lib/proposer_leader.c:152-199 | opens what the specification opens, counters updated once at the end |
| LeaderTable.Leader.ExecuteP2 | lib/proposer_leader.c:239-286 | the branches in the order of the source, or of its comments, and where each value goes |
| LeaderTable.Leader.OpenInstancesP2Expired | lib/proposer_leader.c:289-324 | phase 2 for every ready slot below the frontier; its asserts hold |
| LeaderTable.Leader.OpenInstancesP2New | lib/proposer_leader.c:328-386 | threshold, limit and both stops of the loop, counters updated once at the end |
| LeaderTable.Leader.CheckP2Pending | lib/proposer_leader.c:398-441 | closes, restarts or leaves every slot in phase 2 |
| LeaderTable.Leader.SavePrepareAck | lib/proposer.c:121-166 | the slot after one promise, comparison in place of a shift included |
| LeaderTable.Leader.HandlePrepareAck | lib/proposer.c:190-222 | the table after one promise, and whether its slot became ready |
| LeaderTable.Leader.PeriodicP1Check | lib/proposer_leader.c:211-226 | the whole handler does what the specification says and keeps the table in order, given room for the two windows; and on any table a run reaches, given that no assert fails |
| LeaderTable.Leader.PeriodicP2Check | lib/proposer_leader.c:389-449 | the same for the phase 2 timer |
| LeaderTable.Leader.HandlePrepareAckBatch | lib/proposer.c:225-259 | the same for a batch of promises |
| LeaderTable.Leader.DeliverCallback | lib/proposer.c:172-184 | leader_deliver and the advance of current_iid in the order of the source; a table in order stays so exactly when the instance was opened |
| LeaderTable.Leader.LeaderInit | lib/proposer_leader.c:513-560 | leader_init in the order of the source; a table in order stays so |
| LeaderTable.Leader.LeaderShutdown | lib/proposer_leader.c:564-593 | every slot cleared, every pending client notified, the table left in order |
| LeaderTable.Leader.EnqueueValue | lib/proposer_values_handler.c:124-153 | a value is taken unless the list already holds more than its limit, and the table stays in order |
| LeaderTable.LoopsEnd | lib/proposer_leader.c:113-118 | on any table a run reaches no assert in a loop over the window fails |
| LeaderTable.DeliveringIsSafe | lib/proposer_leader.c:505-509 | no assert can fail on a delivery to a table in order, room or not |
| LeaderTable.Afterwards | lib/proposer_leader.c:100-593 | when no assert can fail, and that after any event a table in order is in order exactly when what was delivered had been opened |
| LeaderOverrun.HandleSane | lib/proposer_leader.c:100-593 | every event, a delivery of an instance never opened included, keeps what holds of any table a run reaches |
| PendingList.List.Enqueue | lib/proposer_values_handler.c:124-153 | the linked list is a sequence: append unless it holds more than 50 values |
| PendingList.List.GetNextPending | lib/proposer_values_handler.c:156-179 | pop from the head, nothing from an empty list |
| PendingList.List.PushBack | lib/proposer_values_handler.c:181-199 | push at the head whatever the length |
| PendingList.List.Drain | lib/proposer_values_handler.c:102-106 | shutdown hands out every value once, in order |
| AcceptorAnswers.HandlerReplies | lib/acceptor.c:152-264 | the records a handler sends are exactly the replies to its requests in order, each told in terms of the records the earlier ones leave: which are ignored, what a promise reports, what an ack says; and it commits what they leave |
| AcceptorAnswers.HandlerIsAt | lib/acceptor.c:166-184 | at every point inside a handler the store is what the requests applied so far leave and the messages hold their replies |
| AcceptorAnswers.RepeatsAnswered | lib/acceptor.c:235-264 | the acks sent for repeat requests are, in order, the stored records of those requested instances a value has been accepted for; nothing is written |
| AcceptorAnswers.LatestAnswered | lib/acceptor.c:103-118 | the retransmission sends the record of the highest instance accepted, once |
| AcceptorAnswers.HolesComeBack | lib/learner.c:262-284 | an open instance a learner asks for comes back as an ack from every acceptor that has accepted a value for it |
| AcceptorAnswers.RetryIsAnswered | lib/acceptor.c:74-98 | a phase 1 that starts over in the next ballot is answered by an acceptor that has promised the one before and has no final record: it promises and reports its vote |
| AcceptorAnswers.DeliveredIsStored | lib/acceptor.c:314-335 | storing a delivered value leaves a final record of it in its ballot, committed, and nothing else different |
| AcceptorAnswers.FinalIsAnswered | lib/acceptor.c:82-87 | from then on every prepare request for the instance is ignored and a learner that asks gets the final value |
| LearnerHistory.SeenIsHighest | lib/learner.c:292-299 | after any sequence of acks highest_iid_seen is the highest instance of them all, in the window or beyond it |
| LearnerHistory.FarAckAsksForHoles | lib/learner.c:262-284 | a learner that ever heard of an instance more than a window ahead asks for every open instance of its window, and for all up to the highest it heard of exactly when no closed one lies more than a window below that |
| LearnerHistory.AckIsKept | lib/learner.c:292-334 | an ack for an open instance of the window is kept unless the acceptor's last has the same or a higher ballot, closes the instance exactly when it is kept and is final or completes a majority of its group, and touches no other open instance |
| LearnerHistory.AckIsIgnored | lib/learner.c:292-320 | any other ack changes nothing but the highest instance seen |
| Wire.PutGet | include/libpaxos_messages.h:19-64 | a number survives its field exactly when it fits |
| Wire.EncodeDecode | include/libpaxos_messages.h:30-64 | a record read back is the record written, whatever bytes follow |
| WireLayout.RecordsAreStructures | include/libpaxos_messages.h:30-64 | a record on the wire is its C structure: every field little-endian at the offset its alignment asks for, then the value |
| Wire.WalkEncodes | lib/udp_receiver.c:10-67 | walking the bytes of a batch gives exactly its records and steps over exactly its bytes |
| Wire.BatchSizeCalc | lib/udp_receiver.c:10-67 | the size walkers return the sum of the record sizes |
| Wire.ReadBatch | lib/proposer.c:239-243 | the receiving loops read exactly what the walk gives |
| SendBuffer.SendAllDelivers | lib/udp_sendbuf.c:79-207 | between a clear and a flush the messages sent hold exactly the records added, in order, each below the size limit (or filled by one record) |
| SendBuffer.SendAllPacks | lib/udp_sendbuf.c:79-207 | a message is closed only when it could not have taken the first record of the next one below the size limit |
| SendBuffer.ValidatesExactly | lib/udp_receiver.c:73-161 | a message of a batch type is accepted exactly when it has the size it declares and its sender is 0 to 9 for the types proposers send and 0 to 2 for those acceptors send |
| SendBuffer.SendsOnlyFull | lib/udp_sendbuf.c:244-252 | nothing is sent exactly when nothing was added |
| SendBuffer.AddKeeps | lib/udp_sendbuf.c:79-187 | adding a record loses none, splits when the next does not fit, and keeps the message within its limit |
| SendBuffer.PacketReads | lib/udp_receiver.c:10-67 | a receiver reads the records that were packed, and the walker returns the declared data_size |
| SendBuffer.SendAllReads | lib/udp_sendbuf.c:79-207 | end to end: the receiver that walks the bytes of all messages sent for a sequence of records, one after the other, reads exactly that sequence |
| SendBuffer.SentValidates | lib/udp_receiver.c:73-161 | a message from a known sender is accepted exactly when all of it arrives |
| SendBuffer.Sender.AddEntry | lib/udp_sendbuf.c:79-207 | the byte buffer holds the message the specification builds |
| SendBuffer.Sender.Flush | lib/udp_sendbuf.c:244-266 | what is handed to the socket is that message, byte for byte |
| SendBuffer.Sender.Clear | lib/udp_sendbuf.c:17-76 | an empty message of the kind |
| WriteAhead.HandleBatchWritesAhead | lib/acceptor.c:152-264 | every message of a handler leaves after what it tells of was committed, also when the batch is split, and the committed store is that of the requests applied one by one |
| WriteAhead.HandleBatchAnswers | lib/acceptor.c:152-264 | the messages carry exactly the answers to the requests taken one by one, in order |
| WriteAhead.RunsWriteAhead | lib/acceptor_stable_storage.c:291-321 | on every run of requests, deliveries and crashes nothing is acknowledged before it is stored |
| WriteAhead.CrashLosesNothing | lib/acceptor_stable_storage.c:304-321 | a crash between handlers changes no record |
| WriteAhead.AddAnswerKeeps | lib/udp_sendbuf.c:103-131 | the commit comes before the flush when an answer does not fit |
| WriteAhead.PromisesKeptExactly | lib/acceptor.c:45-68 | every promise ever sent is still in force after any run with crashes on which no delivered value is stored over a higher promise, exactly when the accept guard is the one of the comments |
| WriteAhead.AcceptNeverLowers | lib/acceptor.c:46-51 | no accept lowers a stored ballot exactly when the guard is the one of the comments |
| WriteAhead.RunsRise | lib/acceptor_stable_storage.c:367-448 | under that guard the ballots written for an instance never go down exactly when no delivered value is stored over a higher promise |
| WriteAhead.RunsVoteBelow | lib/acceptor_stable_storage.c:367-489 | on every run, whatever the guard, every record stored has a value ballot not above its ballot |
| AcceptorRefines.HandlerIsRun | lib/acceptor.c:152-264 | a handler is a run of the protocol that ends with the acceptor's committed store and with all its answers on the network |
| AcceptorRefines.BatchIsRun | lib/acceptor.c:166-221 | a batch of requests is a run of prepare, accept and repeat steps |
| AcceptorServer.AnswersFit | lib/acceptor.c:175-176 | records whose values can be acknowledged stay so, and every answer fits a message |
| AcceptorServer.Server.GetRecord | lib/acceptor_stable_storage.c:326-365 | the shared buffer holds the record found; the assert on its iid holds |
| AcceptorServer.Server.SavePrepare | lib/acceptor_stable_storage.c:408-448 | a record found is raised in the shared buffer, a new one is written over it |
| AcceptorServer.Server.SaveAccept | lib/acceptor_stable_storage.c:370-403 | the record of the request, written inside the transaction |
| AcceptorServer.Server.SaveFinalValue | lib/acceptor_stable_storage.c:454-489 | the delivered value, written inside the transaction |
| AcceptorServer.Server.TxEnd | lib/acceptor_stable_storage.c:304-321 | what was written becomes what survives |
| AcceptorServer.Server.ApplyPrepare | lib/acceptor.c:74-98 | writes and answers what the specification says of the record found |
| AcceptorServer.Server.ApplyAccept | lib/acceptor.c:45-68 | the same for accept requests, and the highest instance accepted |
| AcceptorServer.Server.AddAnswer | lib/udp_sendbuf.c:103-131 | the transaction ends before a full message is flushed |
| AcceptorServer.Server.HandlePrepareReqBatch | lib/acceptor.c:152-186 | the loop does what the fold does |
| AcceptorServer.Server.HandleAcceptReqBatch | lib/acceptor.c:193-228 | the loop does what the fold does |
| AcceptorServer.Server.HandleRepeatReqBatch | lib/acceptor.c:235-264 | the loop does what the fold does |
| AcceptorServer.Server.RetransmitLatestAccept | lib/acceptor.c:103-118 | the record of the highest instance accepted is sent |
| AcceptorServer.Server.DeliverCallback | lib/acceptor.c:314-335 | the final record is committed |
| AcceptorServer.Server.Recover | lib/acceptor_stable_storage.c:37-42 | after a crash the store is what was committed |
| PaxosConfig.QuorumsIntersect | paxos_config.h:78 | any two quorums share an acceptor, for any number of acceptors |
| PaxosConfig.MaskIsRemainder | include/libpaxos_priv.h:98 | masking with size-1 is the remainder for the configured size |
| PaxosConfig.SameIndex | include/libpaxos_priv.h:98 | two instances of one window never share a slot |

## Left out

- AtomicBroadcast.AgreementExactlyWhenSound: the runs for "only if" are of three acceptors and of proposer rings no larger than the learner window (the configured sizes); "if" holds for any sizes.
- AtomicBroadcast.RequestsRestOnQuorums: not stated for acceptors that store delivered values while the bit vector is as written; a slot that has adopted a decided value may then count one acceptor twice.
- WriteAhead.PromisesKeptExactly: says nothing of runs on which a delivered value is stored over a higher promise, which the source does (lib/acceptor.c:314-335); agreement holds on them too.
- WriteAhead.RunsWriteAhead: supposes a durable transactional store; with DURABILITY_MODE 0, the default, transactions are empty and nothing survives.
- LeaderRefines.HandleIsRun: supposes that no assert of the handler fails, which LeaderRuns.RunsSurvive proves of every run within the bound.
- Deployment.EventShows: has the same supposition, and so have RunShows, ProgramsAgree and ProgramsDeliverInOrder. A failing assert ends the process, which is a Reboot except for messages the failing handler had already sent.
- LeaderRuns.RunsKeepOrder: supposes, as the other results about counters, frontiers and values do, that what is delivered to a leader is an instance it has opened; LeaderRuns.DeliverExactly shows that to be necessary, LeaderScenes.LeaderOvertaken that it can fail, and LeaderOverrun what holds without it.
- LeaderTable.Leader.EnqueueValue: the pending list is a sequence here; that the linked list behaves as one is PendingList, whose locks are not modelled.
- Values submitted through shared memory to a proposer that is not leader: leader_init forgets them.
- In Consensus a promise reaches one proposer. LeaderRefines.NotMine shows that at any but the owner of its ballot it changes nothing.
- Deployment.ProgramsAgree: proposers and learners crash between handlers only. Acks reach a learner one by one, which RingLearner shows to be what a batch is.
- p2_completed is a status of the leader's table only; the protocol does not tell it from p2_pending.
- The acceptor has one send buffer here; the source has one for proposers and one for learners, and each handler fills and empties only one of them.
- Message and batch headers are fields of a packet, with their sizes; only the records are modelled as bytes.
- Wire.BatchSizeCalc: asks for a well-formed batch, as Wire.ReadBatch does; a message whose count is larger than its data is walked beyond its end by the source.
- AcceptorServer.Server.HandlePrepareReqBatch: asks, as HandleAcceptReqBatch does, for values that can be acknowledged in one message; a larger one does not fit the buffer of the source.
- Sockets, timers, threads, locks, memory allocation, logging and Berkeley DB itself, which is a map with an open transaction.
- Wrap-around of ballots, instance numbers and counters: they are unbounded here, but Wire.PutGet says when they survive the wire.
- The oracle that elects leaders (tests/example_oracle.c): leadership is arbitrary.
- BroadcastScene.ValueComesAllTheWay: says that a value can be delivered, not that every value is in the end; of progress there is besides it only the termination of loops, the retries, and the detection and answering of holes.
- leader_set_expiration compares with > where a carry at exactly one second needs >= (lib/proposer_leader.c:80).
