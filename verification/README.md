# Skywalker in Dafny

Skywalker is a multi-Paxos library: a group of nodes agrees on one value per instance, feeds the values to
state machines in order, cleans its log behind checkpoints, sends checkpoints to nodes that fell behind, queues
proposals, and elects a master by lease. This project models that logic and proves what it guarantees over every
run, and, where the code alone does not guarantee it, exactly which condition is missing.

`dafny verify dfyconfig.toml` checks everything.

## How the model is built

- **Consensus.** `node.dfy` has the acceptor, proposer, learner and driver of one node as functions on a value.
  A node delivers its own messages by a direct call, so one handler runs a whole chain of nested handlers; the
  functions call each other in the same way. `instance.dfy` is the same code as an object whose methods update
  its fields, each handler proved equal to its function and its entry points proved to move the object on as the
  functions do. `protocol.dfy` is the group: a step is one handler run at one
  node, and the network may lose, repeat, delay and reorder messages. `invariant.dfy`, `monotone.dfy`,
  `preserve.dfy` and `nesting.dfy` hold the inductive invariant, `progress.dfy`, `selfdelivery.dfy` and
  `attention.dfy` what one handler run does to its own node, `retrying.dfy` that no waiting proposal
  is forgotten, and `agreement.dfy`, `exact.dfy`, `smallgroups.dfy`, `encoding.dfy`,
  `catchup.dfy` and `restart.dfy` the results. `traces.dfy` writes out the steps that recur in concrete runs, and
  `counterexamples.dfy` puts the failing runs together from them.
- **Log and checkpoints.** `recovery.dfy` is one node's disk: execution, checkpoints, cleaning and restarts in
  any order, stopped anywhere. `pruning.dfy`, `membership.dfy` and `serving.dfy` belong to it.
- **Transfer, queue, lease, timers, framing, random.** One file each.

Time, disk failures, acknowledgements, fragment sizes, random numbers and what callbacks do are parameters or
free choices of the step. Messages and values are data; their byte encodings are only modelled in `framing.dfy`,
where the content encoder is any pair of functions that round-trip. The length header is four bytes, least
significant first; the library that writes it is not part of this model.

### What runs must respect

Agreement does not hold of the code as it stands. It holds of the runs that also respect three rules, stated as
guards on steps in `protocol.dfy`, so that results say which rules they use:

- **R1**: a reply counts only under the proposal id it answers. The proposer compares only the instance
  (paxos/proposer.cc:77, paxos/proposer.cc:135).
- **R2**: after ACCEPT went out in an instance, another attempt there takes a new id. A timeout leaves the
  skip-prepare flag set (paxos/proposer.cc:194-198), and a retry may prepare with the same id
  (paxos/proposer.cc:187).
- **R3**: a message for the next instance counts as "my accepted value was chosen" (paxos/acceptor.cc:57-58,
  paxos/acceptor.cc:88-89) only if that ballot was decided. With at most four nodes this needs no rule.

Two more conditions are part of the model: **R4**, the membership does not change, and **R5**, the machines
take every value (needed for agreement only).

### What turned out not to hold

Each of these is proved both ways: when it holds, and that it fails otherwise. Where rules are involved, what is
compared is the set of all runs under some of the rules.

- All runs under a set of rules agree exactly if the set has R1, R2 and R3 (`ExactCondition.AgreementIffGuarded`);
  leaving out any one admits a run in which two nodes execute different values. Of groups of at most n nodes, for any
  n from three on, all runs agree exactly if the set has R1 and R2, and R3 too if n is five or more
  (`ExactCondition.AgreementUpTo`).
- A restart keeps the promise if the acceptor wrote the last record; a record taken from another learner keeps
  it only if its ballot happens to be the promised one (`Restart.LearnerRecordReplacesPromise`), and a run that
  respects every rule gets to a state where it does not (`LoweredPromise.RestartLowersPromise`).
- Checkpoint clean-up keeps the newest directory exactly if at most one is surplus (`Pruning.NewestSurvives`).
- Every request to catch up is served in all runs under a set of rules exactly if the set has both of: no restart
  while deleted records are not yet marked as deleted, and no clean-up while two or more directories are surplus
  (`Serving.ServedIffRuled`). Without the first a learner is told to take records that are gone, without the second
  to fetch a checkpoint that was removed.
- A checkpoint session that reports success has sent everything, whatever fails, exactly if only the last machine
  has anything to send (`Transfer.SuccessIsCompleteIff`): a file that fails is forgotten once the next machine's
  files are through, and the receiver installs what came of it (`Transfer.TornIsInstalled`). One session per sender is
  needed as well (`Transfer.SessionsMix`).
- A pass over the timers ends if only finitely many callbacks add a timer that is already due; if every callback does,
  there is always one more to fire (`Timers.TimerList.FireOn`).
- All runs of a group have at most one master at a time exactly if the runs are those in which no node executes a
  bid of its own after giving up on it (`Lease.OneMasterIffPrompt`). Such an execution, and every replay after a
  restart, counts the lease from the time of execution instead of the time of the bid.
- The proposal queue holds one more than its capacity (`Queueing.OneAboveCapacity`).

## Model

| member | source | states |
|---|---|---|
| `Ballots.TotalOrder` | paxos/ballot_number.h:37-69 | ballots are totally ordered by id, then node |
| `InstanceObject.Instance.HandlePrepare` | paxos/acceptor.cc:27-60 | promise or refuse, store before answering, take a PREPARE for the next instance as news that the accepted value was chosen; equals the handler function on the whole node state |
| `InstanceObject.Instance.HandleAccept` | paxos/acceptor.cc:62-91 | vote or refuse, likewise |
| `InstanceObject.Instance.RunPrepare` | paxos/proposer.cc:41-74 | the prepare phase including everything nested in the node's own delivery |
| `InstanceObject.Instance.HandlePrepareReply` | paxos/proposer.cc:76-107 | count, adopt the highest accepted value, pass on to ACCEPT or arm the retry timer |
| `InstanceObject.Instance.RunAccept` | paxos/proposer.cc:109-132 | the accept phase with its nested delivery |
| `InstanceObject.Instance.HandleAcceptReply` | paxos/proposer.cc:134-159 | count votes, announce on a majority |
| `InstanceObject.Instance.RunAnnounce` | paxos/proposer.cc:170-181 | NEW_CHOSEN_VALUE to all and to itself |
| `InstanceObject.Instance.ASyncSend` | paxos/learner.cc:136-162 | the loop sends exactly the records from the asked instance up to the first gap |
| `InstanceObject.Instance.HandleLearnRequest` | paxos/learner.cc:65-134 | answering requests to learn: one record, the current instance unless a checkpoint is being sent, or a batch; and what such an answer sets off: asking for a checkpoint or for the batch |
| `InstanceObject.Instance.RunLearned` | paxos/instance.cc:155-192 | run the machines, report to the waiting proposal, advance or stay |
| `InstanceObject.Instance.HandleMessage` | paxos/instance.cc:107-149 | between calls the object's parts are aligned and its stored record current; one message, with all it sets off, keeps that, finishes at most one instance, executes one value per instance finished, settles the waiting proposal at most once and truthfully, forgets no rejection and takes nothing back |
| `InstanceObject.Instance.HandlePropose` | paxos/instance.cc:64-90 | the same for a proposal: it waits afterwards or was settled within the call, and is refused outside the membership with nothing else changed |
| `InstanceObject.Instance.HandleProposeTimeout` | paxos/instance.cc:81-87 | the waiting proposal is settled as timed out once and its phase and retry timer stop; nothing sent, promised, stored or executed changes, no rejection is forgotten, and the object's invariant is kept |
| `InstanceObject.Instance.HandleRetry` | paxos/proposer.cc:183-190 | the retry timer prepares again only in the instance it was armed for, and moves the object on as a message does |
| `Progress.MessageMoves` | paxos/instance.cc:107-206 | however deep the nesting, one message finishes at most one instance, executes one value per instance finished, settles the waiting proposal at most once and truthfully (done, another's value, or refused by a machine), and takes nothing back |
| `Progress.ProposeMoves` | paxos/instance.cc:64-90 | the same for starting a proposal |
| `Progress.RetryMoves` | paxos/proposer.cc:183-190 | the same for the retry timer |
| `Progress.ErrorIffRefused` | paxos/instance.cc:155-192 | a waiting proposal is told of a machine error if and only if a machine refused the value learned for the instance |
| `Retrying.NeverStuck` | paxos/proposer.cc:41-190 | in every state of every run a node with a waiting proposal has announced a decision for its instance, or its retry timer may fire and sends PREPARE there |
| `Retrying.RoundsAreOpen` | paxos/proposer.cc:76-159 | in every state of every run a round that is still counted has neither a majority of grants, nor a majority of refusals, nor an answer from everybody |
| `Retrying.TimeoutRests` | paxos/proposer.cc:194-198 | after a timeout nothing is under way: no phase, no retry timer |
| `Retrying.StepRests` | paxos/proposer.cc:76-198 | from then until the next proposal no step makes the node send PREPARE, ACCEPT or NEW_CHOSEN_VALUE |
| `Solo.ProposalDecides` | paxos/proposer.cc:32-181 | in a group of one a proposal is decided and executed before the call returns |
| `Solo.AllExecutedInOrder` | paxos/instance.cc:64-206 | so any sequence of proposals is executed in order, once each |
| `Invariant.ChosenIsUnique` | paxos/acceptor.cc:27-91 | from the invariant: two decided values for an instance are equal |
| `Invariant.LaterBallotsAgree` | paxos/proposer.cc:76-107 | every proposal above a decided ballot carries the decided value |
| `Nesting.MessageOk` | paxos/instance.cc:107-149 | every message, with all it sets off, keeps the invariant of the whole group |
| `Preserve.CheckLearnOk` | paxos/instance.cc:155-206 | executing and advancing keeps the invariant |
| `Preserve.ForgetOk` | log/log_cleaner.cc:33-60 | deleting finished records keeps the invariant |
| `Agreement.RunIsSafe` | paxos/instance.cc:64-206 | every state of every run keeps the invariant |
| `Agreement.RunGoesOnward` | paxos/instance.cc:64-206 | nothing sent, executed or promised is ever taken back |
| `Agreement.ExecutedIsChosen` | paxos/instance.cc:155-192 | a value executed anywhere at any time was decided, by the votes of a majority in its instance, and stays decided |
| `Agreement.SameValueLearned` | paxos/learner.cc:31-40 | agreement: two nodes that learn a value for the same instance, at any times and by any message, learn the same |
| `Agreement.LogsAgree` | paxos/instance.cc:155-206 | executed sequences are prefixes of one another, one value per finished instance, every stored finished record holds the executed value, and none from the start of the log on is missing |
| `Agreement.ToldIsChosen` | paxos/learner.cc:164-176 | a value sent to a learner was decided, under a ballot with the proposal id that is sent along |
| `Agreement.ToldValueAgrees` | paxos/learner.cc:178-186 | it is what any node executed for that instance |
| `Agreement.FollowersAreTold` | paxos/learner.cc:243-262 | every follower was sent every value a node executed, with its instance |
| `Agreement.SkipPrepareIsSound` | paxos/proposer.cc:34-39 | with R1 alone: whenever prepare may be skipped, the node sent PREPARE under its id in some instance k0, a majority answered it and is still bound to at least that ballot, and no member of it votes below in any instance after k0, at any time; the current instance is after k0 unless PREPARE went out in it |
| `Agreement.PromiseIsHeld` | paxos/acceptor.cc:27-60 | an acceptor that ever answered a PREPARE for a ballot with a promise is still bound to at least that ballot |
| `Agreement.NoLowerVote` | paxos/proposer.cc:91-96 | in every reachable state: an acceptor that promised a ballot in instance k0 has no vote for a smaller ballot in any instance after k0 |
| `ExactCondition.AgreementIffGuarded` | paxos/proposer.cc:76-159 | for every choice among R1, R2 and R3: all runs of all groups agree if and only if all three are respected |
| `ExactCondition.AgreementUpTo` | paxos/acceptor.cc:57-58 | for every bound n of at least three on the number of nodes: all runs of such groups agree if and only if R1 and R2 are respected, and R3 too if n is five or more |
| `WithoutR1.Disagree` | paxos/proposer.cc:76-90 | three nodes, promises of an earlier ballot counted: different values executed |
| `WithoutR2.Disagree` | paxos/proposer.cc:194-198 | two nodes, a ballot used again after a timeout: different values executed |
| `WithoutR3.Disagree` | paxos/acceptor.cc:57-58 | five nodes, a message for the next instance taken as a decision: different values executed |
| `SelfDelivery.MessageKeeps` | paxos/acceptor.cc:27-91 | for every request a node sent and did not itself ignore while receiving a checkpoint: its own acceptor promised the id, and voted for an ACCEPT or made the proposer take a new id before it goes on |
| `Attention.EveryStep` | paxos/instance.cc:107-118 | in every step a node votes only at or after the instance it stands in and tells others only its own log start; it takes a new proposal id only after a rejection, and then the first above all it knows; it waits for a checkpoint only because it did before or was told that the records after its instance are gone; and it leaves an own ACCEPT unheard only while it waits |
| `SmallGroups.OthersVoted` | paxos/proposer.cc:134-159 | with at most four members, if a majority voted in an instance a node has not reached, all other nodes have reached it |
| `SmallGroups.StepStays` | paxos/learner.cc:100-115 | with at most four members every step keeps: a node waiting for a checkpoint is behind all others, and an ACCEPT it did not hear has its own vote or can never get another's |
| `SmallGroups.ShortcutIsSafe` | paxos/acceptor.cc:88-89 | with at most four members R3 holds by itself: the sender of the message voted for its ballot too, or sent it so late that nobody can have accepted it |
| `SmallGroups.SmallGroupNeedsNoR3` | paxos/acceptor.cc:57-58 | so every run of such a group that respects R1 and R2 respects all three |
| `Encoding.ZeroMeansGranted` | paxos/acceptor.cc:34-52 | a rejected id of 0 in a reply means exactly that the request was granted |
| `Encoding.ZeroMeansNoVote` | paxos/acceptor.cc:95-101 | an accepted id of 0 means exactly that there was no vote in the instance |
| `Encoding.RetryExceedsRejection` | paxos/proposer.cc:161-168 | in every run, after a rejection was received every PREPARE the node sends at any later time has an id above the rejecting promise |
| `CatchUp.AnyDeliveryIsGapFree` | paxos/learner.cc:178-186 | whatever batch messages arrive, in any order, repeated or lost, the receiver holds a gap-free copy of the sender's values |
| `CatchUp.InOrderDeliveryCompletes` | paxos/learner.cc:136-162 | the batch delivered in order brings the receiver exactly to the sender |
| `CatchUp.NewsOfDecision` | paxos/acceptor.cc:57-58 | NEW_CHOSEN_VALUE for the accepted ballot, or any request of its proposer for the next instance under the same id, finishes the instance with the accepted value; other ballots change nothing |
| `CatchUp.OtherInstanceIsIgnored` | paxos/learner.cc:31-40 | requests, announcements and values of other instances change nothing |
| `CatchUp.ValueIsPassedOn` | paxos/learner.cc:243-262 | a learned value goes on to each follower under the proposal id it came with; where it came from another learner the node part is that learner |
| `CatchingUp.LaggingNodeCatchesUp` | paxos/learner.cc:42-186 | from every reachable state a node behind another that still has the missing records can get to the other's instance by their messages alone, and has then executed the same |
| `CatchingUp.DeletedMeansCheckpoint` | paxos/learner.cc:100-134 | and one whose missing records were deleted can come to ask for a checkpoint and wait |
| `CatchingUp.NewsIsIgnored` | paxos/learner.cc:100-115 | news of another instance, of a node not ahead, or while already learning changes nothing |
| `Restart.RestartKeepsPromise` | paxos/instance.cc:30-51 | after the acceptor's own record a restart keeps promise and vote, and goes on with an id above that of every request the node sent and did not itself ignore during a checkpoint transfer |
| `Restart.GrantIsStored` | paxos/acceptor.cc:27-91 | a promise or vote is on record before it is answered: a restart right after comes back with exactly that acceptor |
| `Restart.LearnerRecordReplacesPromise` | paxos/learner.cc:219-234 | after a learner's record it keeps the promise if and only if the ballots coincide |
| `LoweredPromise.RestartLowersPromise` | paxos/learner.cc:219-234 | a reachable state, all rules respected, from which a restart comes back with a lower promise |
| `MembershipMachine.LastChangeWins` | machine/membership_machine.cc:64-106 | the last change of a message for an id decides whether and how it is a member |
| `MembershipMachine.UntouchedStays` | machine/membership_machine.cc:64-106 | an id no change speaks of keeps its entry |
| `MembershipMachine.ExecutedOnce` | machine/membership_machine.cc:64-70 | an entry that took effect, handed over again, or any earlier one, changes nothing |
| `MembershipMachine.Machine.Execute` | machine/membership_machine.cc:64-106 | the loop applies all changes in order, or nothing if the version or the bytes do not fit |
| `Pruning.CleanCheckpoint` | machine/machine_manager.cc:262-310 | the swap-and-pop loop: how many are left, which, what was removed, and that the reported oldest is the smallest left |
| `Pruning.NewestSurvives` | machine/machine_manager.cc:262-310 | the newest survives if and only if at most one is surplus, the oldest if and only if none is |
| `Recovery.VersionGateIsOpen` | machine/membership_machine.cc:64-70 | in any run the version test never refuses an entry |
| `Recovery.UserHistory` | machine/machine_manager.cc:111-133 | after any run the user machines got exactly the values meant for them, each with its instance, once and in order |
| `Recovery.VersionIsLast` | machine/membership_machine.cc:64-106 | the membership version is the instance of the last readable change |
| `Recovery.LastChangeOfLog` | machine/membership_machine.cc:64-106 | whether and how an id is a member is what the last change for it anywhere in the log says |
| `Recovery.NeverChanged` | machine/membership_machine.cc:64-106 | and what the initial membership says if there is none |
| `Recovery.ReplayLog` | log/log_manager.cc:41-59 | the loop applies exactly the records of the range, or fails at the first that is missing |
| `Recovery.CollectLoop` | log/log_cleaner.cc:33-60 | the loop deletes exactly a range from the old start on; if it moves at all it leaves the number of records to keep and nothing past the oldest checkpoint is deleted, and it stops only at one of the two bounds |
| `Recovery.StepOk` | log/log_manager.cc:20-39 | accepting, deciding, checkpointing, giving a checkpoint up, failing to rename it, cleaning and restarting each keep the disk's invariant |
| `Recovery.RestartRebuilds` | machine/machine_manager.cc:79-109 | restoring what a clean-up left and replaying gives the machines of the run up to the restored instance |
| `Recovery.CleanUpIsUsable` | machine/machine_manager.cc:262-310 | what a clean-up leaves, and calls latest and oldest, is always enough for that |
| `Recovery.RecoveryRefinesExecution` | log/log_manager.cc:20-59 | over every run, stopped anywhere, even between the cleaner's two writes, a restart succeeds, gets at least to the last decided value and equals full execution up to there; the user machines then hold exactly the decided values meant for them, in order |
| `Recovery.CheckpointsAdvance` | machine/machine_manager.cc:153-161 | a checkpoint is never asked for at or below the latest one |
| `Serving.ReachedIsTidy` | machine/machine_manager.cc:196-220 | under both rules the latest checkpoint is on disk, and the log starts where it is marked to start |
| `Serving.EveryCatchUpIsServed` | paxos/learner.cc:65-115 | under both rules whatever a lagging node asks for is there: the record, every record of the batch, or a right checkpoint far enough on |
| `Serving.UnmarkedDeletion` | log/log_cleaner.cc:33-60 | without the first rule: a run that ends with a record gone and not marked as deleted |
| `Serving.SkippedCleanUps` | machine/machine_manager.cc:262-310 | without the second rule: a run that ends with the latest checkpoint removed |
| `Serving.ServedIffRuled` | paxos/learner.cc:100-115 | for every choice of the two rules: all runs serve every request if and only if both are respected |
| `Transfer.Sender.SendFile` | log/checkpoint_sender.cc:96-141 | the loop sends numbered pieces of the file until the end or a failure |
| `Transfer.Sender.SendCheckpointFiles` | log/checkpoint_sender.cc:62-94 | all machines in turn; a failed file ends its machine only, and the last machine's result is reported |
| `Transfer.PlanData` | log/checkpoint_sender.cc:62-141 | each file's packets carry a prefix of it, and all of it where the machine's files went through |
| `Transfer.SmoothIsOk` | log/checkpoint_sender.cc:62-141 | a machine's files go through where nothing fails for it |
| `Transfer.LastDecides` | log/checkpoint_sender.cc:93 | the reported result is that of the last machine alone |
| `Transfer.SuccessIsCompleteIff` | log/checkpoint_sender.cc:84-93 | reported success means everything was sent, whatever fails, if and only if only the last machine has data |
| `Transfer.SessionShape` | log/checkpoint_sender.cc:50-60 | a session is numbered without gaps, its pieces are of planned files, none empty or over the buffer size |
| `Transfer.ReceiverObject.ReceiveFiles` | log/checkpoint_receiver.cc:39-80 | only the followed sender's next packet is taken; a positive answer means the packet is the last one taken |
| `Transfer.ReceiverObject.Receive` | log/checkpoint_receiver.cc:23-117 | BEGIN, FILE and END with every failure; a piece is confirmed if and only if it is the last one taken, and only END with a successful rename installs |
| `Transfer.ReceiverFollows` | log/checkpoint_receiver.cc:23-123 | whatever arrives, the files hold exactly the followed sender's packets so far |
| `Transfer.InstalledIsWhatWasSent` | log/checkpoint_receiver.cc:82-99 | an accepted END installs exactly the files one sender sent, each the in-order concatenation of its pieces |
| `Transfer.UndisturbedIsInstalled` | log/checkpoint_receiver.cc:23-99 | whatever the receiver was doing before, a whole session delivered in order without failures is installed |
| `Transfer.RepeatIsHarmless` | log/checkpoint_receiver.cc:44-46 | a piece that comes a second time changes nothing |
| `Transfer.SessionsMix` | log/checkpoint_receiver.cc:44-50 | two sessions of one sender with losses can install a file that is neither's |
| `Transfer.TornIsInstalled` | log/checkpoint_sender.cc:62-94 | one negative acknowledgement in the middle of a file, everything else well: END goes out and the receiver installs the torn file |
| `Transfer.CheckpointArrives` | log/checkpoint_sender.cc:26-48 | end to end, for any number of machines and senders: if in the sessions that sent END all files went through, the installed files are one sender's non-empty files, byte for byte |
| `Queueing.ProposeQueue.Put` | paxos/propose_queue.cc:26-39 | accepted if and only if there is room, always if there is no capacity; starts at once or waits |
| `Queueing.ProposeQueue.ProposeComplete` | paxos/propose_queue.cc:41-57 | the first callback gets the outcome and the next proposal starts |
| `Queueing.EveryRunAnswersInOrder` | paxos/propose_queue.cc:26-57 | over every interleaving with the driver: no assertion fails, one proposal at a time, callback k answers proposal k, and truthfully: done was executed, a conflict is another's value or a held lease, a machine error comes only where machines can refuse, and an invalid node only outside the membership |
| `Queueing.RunOk` | paxos/group.cc:103-115 | taking the next proposal from the io loop, entered or refused because of a held lease, meets every assertion and keeps the queue's invariant |
| `Queueing.OneAboveCapacity` | paxos/propose_queue.cc:18-24 | the number waiting reaches the capacity plus one and no more is accepted |
| `Lease.MasterMachine.Execute` | machine/master_machine.cc:52-86 | the new state, from the bid's time where it is known and from now where it is not |
| `Lease.BidClears` | paxos/group.cc:103-115 | a node that may bid has seen every other node's claim run out |
| `Lease.MasterRenews` | paxos/group.cc:103-115 | a master may bid again before its lease ends, stays master meanwhile, and then holds it for a whole term from the bid |
| `Lease.FreeLeaseIsTaken` | paxos/group.cc:103-115 | a node that has seen the lease run out may bid and becomes master when the bid is decided |
| `Lease.ClaimedOnce` | machine/master_machine.cc:52-58 | a bid that took effect, handed over again, or any earlier one, changes nothing |
| `Lease.PromptRunKeepsInv` | machine/master_machine.cc:52-86 | in prompt runs an own claim is held to its end and another's no shorter than its owner holds it |
| `Lease.InvMeansOneMaster` | machine/master_machine.cc:115-122 | then at most one node answers that it is master |
| `Lease.OneMasterIffPrompt` | machine/master_machine.cc:115-122 | never two masters at a time if and only if runs are prompt |
| `Timers.TimerList.Insert` | util/timerlist.cc:93-98 | both collections gain the timer |
| `Timers.TimerList.Remove` | util/timerlist.cc:82-91 | both lose it, even through a handle with an old deadline |
| `Timers.TimerList.TimeoutMs` | util/timerlist.cc:100-115 | the wait is exactly until the earliest deadline, 0 if the clock went back |
| `Timers.TimerList.RebaseTimers` | util/timerlist.cc:125-134 | all deadlines move back with the clock |
| `Timers.RebaseKeepsWait` | util/timerlist.cc:125-134 | a deadline moved back with the clock is as far away as before, and a passed one is still due |
| `Timers.TimerList.FireDue` | util/timerlist.cc:137-156 | if from some callback on none adds a timer already due, the loop ends, nothing is due after it, no timer fired twice; what is left keeps its interval, and its deadline or, repeating and due, one interval from now; what is gone was removed or a single shot that fired |
| `Timers.TimerList.FireOn` | util/timerlist.cc:137-156 | if every callback adds a timer already due, the loop has more to fire after any number of turns |
| `Timers.TimerList.RunTimerProcs` | util/timerlist.cc:117-157 | a pass fires exactly what was due, in deadline order, less what callbacks removed, if callbacks add nothing already due; what it leaves behind is as after the loop |
| `Framing.Connection.OnMessage` | network/network.cc:125-146 | the loop hands over every whole message and keeps the rest |
| `Framing.StopsAt` | network/network.cc:125-146 | decoding stops at an incomplete frame and goes on later, or at a bad one and shuts down |
| `Framing.EverySplitIsTheSame` | network/network.cc:125-146 | for any bytes, how they are cut into reads makes no difference |
| `Framing.EverySplitDecodes` | network/network.cc:113-146 | wherever a stream of messages is cut, exactly the complete ones are handed over, in order |
| `Framing.WholeStream` | network/network.cc:113-146 | the whole stream gives back exactly the messages and leaves nothing |
| `RandomNumbers.Random.constructor` | util/random.h:17-21 | the two degenerate seeds are replaced |
| `RandomNumbers.Random.Next` | util/random.h:23-32 | the next number is 16807 times the last modulo 2147483647, in range |
| `RandomNumbers.StepIsModular` | util/random.h:23-32 | shift, mask and subtraction do that without overflow |
| `RandomNumbers.StepIsInjective` | util/random.h:23-32 | no two seeds lead to the same number |
| `RandomNumbers.StepsArePowers` | util/random.h:23-32 | after any number of steps the seed is the power it should be and never 0 |

## Left out

- LevelDB, its comparator and batches: the log is a map from instance to record, and writes succeed.
- Values for a machine that does not exist, and machines that refuse, in `Recovery`: there every decided value is taken.
- Restart inside the group model: restarts are shown per node (`Restart`, `Recovery`), not as steps of `Protocol`.
- Changing the membership during a run: the group is a constant (R4); `MembershipMachine` covers the change itself.
- Value ids: they are random in the source (paxos/instance.cc:208-212) and parts of the proposed value here.
- Wrap-around of 64-bit instance and proposal ids.
- The flag that a checkpoint is being sent (paxos/learner.cc:18) is shared by all groups of a process; here it is one per node and may change at any time.
- Sending a batch from another thread: it is sent at once; finished records do not change in between.
- More than one pending retry timer: a timer of an earlier instance does nothing when it fires, so one is kept.
- `GetMaster` (machine/master_machine.cc:105-113) compares milliseconds with microseconds; the lease result is about `IsMaster`.
- The master machine's checkpoint and its clock arithmetic on recovery (machine/master_machine.cc:14-50).
- Acknowledgement window of the checkpoint sender (log/checkpoint_sender.cc:155-190): only whether acknowledgements were positive.
- Local checkpoints and transfers at the same time in one temporary directory.
- Frames whose length is smaller than the header: decoding stops, as for a body that does not parse.
- Timer handles whose address is used again for another timer.
- Protobuf, checksums, TCP, threads and locks, POSIX files, logging, options, id parsing, examples: plumbing that would add only easy members.
- Transfer.CheckpointArrives: assumes one session per sender, because two can be mixed (`Transfer.SessionsMix`), and that all files went through, because a torn one can be installed (`Transfer.TornIsInstalled`).
- Timers.TimerList.FireDue: assumes that callbacks stop adding due timers at some point, because otherwise the loop does not end (`Timers.TimerList.FireOn`).
- Restart.RestartKeepsPromise: assumes the acceptor wrote the last record, because a learner's record need not keep the promise.
- Lease.OneMasterIffPrompt: assumes one clock for all nodes, and two nodes with positive lease times for the failing run.
- Serving.EveryCatchUpIsServed: speaks of the times at which no deletion is waiting to be marked; a request in between is told the old start of the log.
