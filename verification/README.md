# A verified model of RSL

RSL is a replicated state library: a Paxos engine (`src/RSL/src`), the lock-free library it runs on
(`src/LF`), its packet transport (`src/NetworkLib`) and its log files. This project models the behaviour
that is hard to get right in each of them and proves what it promises: on every run of the protocols,
for any number of replicas, threads and packets, under every interleaving, loss, reordering and crash.

`dafny verify dfyconfig.toml` checks everything.

## How it is organised

- **Consensus.** `Ballots`, `Legislator` (the handlers of one replica, as functions from a replica and a
  message to its new state and what it sends), `Consensus` (any number of replicas, a network that may lose,
  repeat and reorder, crashes between logging and sending, restarts from the log), and the proof in
  `ConsensusProof`, `ConsensusFacts`, `ConsensusSteps`, `ConsensusPrimary`, `ConsensusLearner` and
  `ConsensusRuns`. The engine is Paxos with one shortcut, described in `src/RSL/src/paxos.txt`: a decree is
  known to be decided when the next one is proposed under the same ballot. `ThreeReplicas`, `DecreeZero` and
  `Forgetting` show where that breaks.
- **Lock-free library.** State machines with one step per load, compare-and-swap, event or semaphore
  operation, and any number of threads: the queue with recycled nodes (`LfQueue`, `LfQueueProof`,
  `LfQueueRuns`), the counters of the blocking lists (`Supply`), the exclusive lock (`ExLock`), the
  reader/writer lock (`RwLock`, `RwLockProof`, `RwLockPatience`, `RwLockStale`), the lock pool (`PoolLock`, `PoolLockProof`) and
  its growing event table (`EventTable`). `Bits`, `LockWords` and `ObjectWords` show that the packed words are
  the records of fields those models use; `PackedLock` and `PackedPool` run the reader/writer lock and the pool
  on their packed words.
- **Transport.** The ring buffer (`NetBuffer`), packets in a byte stream (`Framing`), reassembly (`Receiver`),
  the timer wheel (`TimerWheel`), the queue of time-outs (`TimeoutQueue`) and the send side, with its retry
  queue, connections and callbacks (`SendPath`, `SendPathProof`, `SendPathOrder`).
- **Log files.** The gather write and the decree index (`LogFile`, `LogRecords`).

## What turned out not to hold

Five properties that the code or its comments suggest are false of the code. Each comes with inputs or a run on
which it fails and with the exact condition under which it holds.

- Replicas can disagree. A restart from a log that holds promises and no vote goes on in a new, empty log file and
  keeps the highest ballot only in memory, so the restart after that one forgets every promise
  (`Forgetting.Disagreement`, for every first decree from 1 on). A configuration whose first decree is 0 does not
  agree even without such restarts, because reading the log back skips records of decree 0
  (`DecreeZero.Disagreement`). Replicas agree on every run exactly when the first decree is 1 or later and no
  replica restarts from a log that holds promises and no vote (`Forgetting.AgreementExactly`).
- The reader/writer lock can be owned twice. A waiting writer that wakes up to a busy word verifies it by a
  compare-and-swap; when that fails it goes on to take the lock from the word it read, and succeeds if the word
  has become the same again. The lock is safe on exactly the runs where this does not happen
  (`RwLockProof.SafeExactly`). In terms of its callers: n threads are safe exactly when n is at most one, or when
  callers neither spin nor time out (`RwLockStale.SafeForThreads`). The lock pool does not have this path.
- The timer wheel can pass over a due event when a check comes late: exactly when the two checks lie an even,
  nonzero number of 256-tick blocks apart (`TimerWheel.NothingMissedExactly`, `TimerWheel.PassOver`).
- A connection does not survive the header of a packet of more than 2^30 bytes: its length, or that of the memory
  for it, is negative as an int. No stream does this exactly when the largest packet let through is at most 2^30
  bytes, that is, when the configured megabytes modulo 4096 are below 1024 (`Framing.NeverTooLargeExactly`,
  `Framing.ConfiguredSafely`, `Receiver.Lost`).
- A log without votes claims to have decree 0 (`LogFiles.LogFile.HasDecree`), and a write whose 32-bit count of
  pending bytes wraps is cut short (`LogFiles.LogFile.Write`, `LogFiles.CountCanWrap`).

## Model

| member | source | states |
|---|---|---|
| Ballots.NextBallot | src/RSL/src/legislator.cpp:3909-3974 | the ballot a candidate picks is its own, above every ballot it logged and not below any it has seen |
| Ballots.QuorumsMeet | src/RSL/src/legislator.cpp:4615-4619 | any two quorums of any number of replicas share a member |
| ConsensusFacts.DecidedUnique | src/RSL/src/paxos.txt:1-29 | no decree is decided with two commands, under whatever ballots |
| ConsensusFacts.DecidedMatches | src/RSL/src/paxos.txt:11-15 | a proposal carries whatever is decided for its decree under its ballot or a lower one |
| ConsensusFacts.PreviousDecided | src/RSL/src/paxos.txt:5-9 | the accepted command of a decree is the decided one once the next decree may go ahead under its ballot |
| ConsensusFacts.PromisesSeal | src/RSL/src/legislator.cpp:2825-2914 | a quorum of promises means nothing can still be accepted above the reported decree under a lower ballot |
| ConsensusFacts.FreshestIsSafe | src/RSL/src/legislator.cpp:2917-2952 | below the new ballot nothing but the freshest vote a quorum reported can be decided |
| ConsensusFacts.SealedIsSafe | src/RSL/src/legislator.cpp:3977-4036 | above a sealed decree any command may be proposed under the ballot |
| ConsensusFacts.OwnProposals | src/RSL/src/legislator.cpp:3977-4036 | a replica has accepted and logged what it proposed under its own ballots |
| ConsensusFacts.PrepareLogged | src/RSL/src/legislator.cpp:4837-4853 | logging a promise keeps the log such that reading it back restores the replica, in the file it is written to |
| ConsensusFacts.VoteLogged | src/RSL/src/legislator.cpp:4689-4834 | logging a vote that follows the accepted one keeps the log such that reading it back restores the replica |
| ConsensusSteps.PrepareSound | src/RSL/src/legislator.cpp:2825-2914 | handling a prepare message, accepted or refused, keeps the invariant's conditions |
| ConsensusSteps.NotAcceptedSound | src/RSL/src/legislator.cpp:2955-3006 | handling a refusal keeps them |
| ConsensusSteps.VoteSound | src/RSL/src/legislator.cpp:2517-2675 | handling a vote keeps them, and what it puts on the execution queue is decided |
| ConsensusSteps.PrimaryTakesHigher | src/RSL/src/legislator.cpp:2517-2675 | a stable primary takes no vote of another but one under a higher ballot |
| ConsensusSteps.RestartSound | src/RSL/src/legislator.cpp:5386-5717 | a restart from a log that is not promises alone keeps them, and what it executes again is decided |
| ConsensusPrimary.NewBallotSound | src/RSL/src/legislator.cpp:3909-3974 | starting to prepare keeps them: nobody proposed under the new ballot |
| ConsensusPrimary.PromiseCounted | src/RSL/src/legislator.cpp:2917-2952 | a promise that is counted answers the current prepare message, with a vote of its decree or an older one |
| ConsensusPrimary.PrepareAcceptedSound | src/RSL/src/legislator.cpp:2917-2952 | counting a promise keeps them |
| ConsensusPrimary.PrimarySound | src/RSL/src/legislator.cpp:3865-3891 | the first proposal of a new primary is safe and is decided at once if it is alone |
| ConsensusPrimary.ProposeSound | src/RSL/src/legislator.cpp:3977-4036 | the next proposal of a standing primary is safe, for any command |
| ConsensusLearner.QuorumDecides | src/RSL/src/legislator.cpp:2762-2822 | the replies a primary counted, with its own vote, decide its proposal |
| ConsensusLearner.VoteAcceptedSound | src/RSL/src/legislator.cpp:2762-2822 | counting a reply keeps the conditions, also when it completes the quorum |
| ConsensusLearner.LatestVoteIs | src/RSL/src/legislator.cpp:3368-3392 | learning starts at the latest vote of the decree in the peer's log, if there is one |
| ConsensusLearner.BeginLearningSound | src/RSL/src/legislator.cpp:3433-3565 | starting to learn keeps the conditions |
| ConsensusLearner.MissingOk | src/RSL/src/legislator.cpp:3433-3565 | the vote a learner makes up when its peer's log skips one carries a proposed command under a justified ballot |
| ConsensusLearner.LearnSound | src/RSL/src/legislator.cpp:3433-3565 | every record learnt keeps the conditions, and what it puts on the execution queue is decided |
| ConsensusRuns.StepKeeps | src/RSL/src/legislator.cpp:2462-3006 | every step of every replica, and every crash between two of its effects, keeps the invariant, except a restart from promises and no vote |
| ConsensusRuns.ReplicasAgree | src/RSL/src/paxos.txt:1-29 | on every run with first decree 1 or later and no restart from promises and no vote, no two replicas, nor two incarnations of one, ever execute different commands for a decree |
| ConsensusRuns.ExecutedWasProposed | src/RSL/src/legislator.cpp:2462-2514 | on every such run whatever is executed was proposed by a ballot's owner, and every decree before it back to the first is decided |
| ConsensusRuns.RestartRecovers | src/RSL/src/legislator.cpp:5386-5717 | on every such run, reading the log back restores the highest ballot and the decree and ballot of the accepted vote, its command too once the decree is decided below, and executes every earlier decree again |
| ConsensusRuns.AssertionsNeverFail | src/RSL/src/legislator.cpp:2762-2952 | on every such run the handlers' assertions about other replicas, the accepted ballot and the owner of the ballot hold for every deliverable message |
| ConsensusRuns.LogsReadBack | src/RSL/src/legislator.cpp:5560-5655 | on every such run every log can be read back record by record without a failed assertion of the restart, its last one included |
| DecreeZero.PromisesForgotten | src/RSL/src/legislator.cpp:5570-5588 | a log of a promise and a vote for decree 0 is read back as if nothing had been promised |
| DecreeZero.Disagreement | src/RSL/src/legislator.cpp:5570-5588 | with first decree 0 a run of three replicas executes 7 and 8 for decree 1 |
| Forgetting.SecondRestart | src/RSL/src/legislator.cpp:5668-5707 | a second restart keeps the highest ballot of the first, whatever is in the log, if and only if the first did not leave a file of promises and no vote |
| Forgetting.Disagreement | src/RSL/src/legislator.cpp:5668-5707 | for every first decree from 1 on, a run of three replicas with two restarts in a row executes 7 and 8 for one decree |
| Forgetting.AgreementExactly | src/RSL/src/legislator.cpp:5668-5707 | replicas agree on all runs, or on all that never restart from promises and no vote, if and only if it is the latter and the first decree is at least 1 |
| LfQueueProof.LinkAppends | src/LF/LF.c:3066-3093 | the successful link appends the node to the list, whatever other threads hold, and keeps the invariant |
| LfQueueProof.TailMoves | src/LF/LF.c:3066-3093 | moving the tail, by the putter or a helper, keeps the invariant |
| LfQueueProof.HeadMoves | src/LF/LF.c:3284-3328 | the successful get takes exactly the oldest message and keeps the invariant |
| LfQueueProof.PopTakes | src/LF/LF.c:1219-1244 | popping a free node that was recycled meanwhile still takes the first of the free list |
| LfQueueProof.PushGives | src/LF/LF.c:1219-1244 | pushing a node back keeps every node in one place |
| LfQueueProof.StepKeeps | src/LF/LF.c:2565-2745 | every step of every thread keeps the invariant, block allocation included |
| LfQueueRuns.FifoOrder | src/LF/LF.c:3055-3094 | on every run the messages got are the first messages put, in the order of the successful links, and the rest are in the queue |
| LfQueueRuns.ShapeKeeps | src/LF/LF.c:3279-3328 | on every run head, tail and links form one list, the tail is its last node or the one before, and every node is in one place |
| LfQueueRuns.NodesKnown | src/LF/LF.c:3055-3328 | on every run whatever node a thread is about to read or write was allocated, though it may have been recycled meanwhile |
| LfQueueRuns.EmptyWasEmpty | src/LF/LF.c:3284-3310 | a get that reports an empty queue ran while the queue was empty at some instant of the call |
| Supply.AddKeeps | src/LF/LF.c:2424-2467 | counting a whole block at once and releasing tokens in one batch keeps the counter exact and loses no wake-up |
| Supply.SupplyReachesClaims | src/LF/LF.c:2039-2113 | on every run the counter is the counted nodes less the claims, and every claim a counted node could serve has a token, a pending release or an awake claimant |
| Supply.BlockedMeansToken | src/LF/LF.c:2184-2204 | when every claimant is blocked and every node counted, a node and a claimant mean a token |
| ExLock.Unpack | src/LF/LF.c:3789-3928 | the state word gives back its released bit, spin bit and number of waiters |
| ExLock.ExclusiveAndAwake | src/LF/LF.c:3789-3928 | on every run there is at most one owner, the word counts the waiters, and a released lock with waiters has its event set, pending or consumed |
| ExLock.OwnerMayRelease | src/LF/LF.c:3989-4018 | on every run an owner's word is not released |
| RwLockProof.StaleTakeBreaks | src/LF/LF.c:4426-4453 | a writer that takes a word it read as busy makes the lock unsafe |
| RwLockProof.SafeExactly | src/LF/LF.c:4134-4855 | a run excludes writers from readers and writers in every state if and only if no writer takes a word it read as busy |
| RwLockProof.WakeupsKept | src/LF/LF.c:4134-4855 | on such runs no wake-up of a writer, an upgrader or a reader is lost, through time-outs, spinning, hand-over and downgrade |
| RwLockProof.UpgraderRetakes | src/LF/LF.c:4640-4662 | on such runs an upgrader that gives up finds no writer active when it takes its shared lock back |
| RwLockStale.TwoOwners | src/LF/LF.c:4422-4453 | if callers may spin, among any number of threads from two on two can come to own the lock, without any time-out |
| RwLockStale.TwoOwnersAfterTimeout | src/LF/LF.c:4422-4453 | if callers may time out, two can come to own it too, without any spinning |
| RwLockStale.SafeForThreads | src/LF/LF.c:4300-4453 | every run of n threads is safe if and only if n is at most one or callers neither spin nor time out |
| RwLockStale.PatientWakeups | src/LF/LF.c:4134-4855 | callers that neither spin nor time out lose no wake-up, for any number of threads |
| RwLockPatience.PatientRun | src/LF/LF.c:4300-4453 | on every run of such callers the writer event is set, pending or consumed at most once, and then the lock is idle and a writer waits, so no writer takes a word it read as busy |
| RwLockStale.SafeIfNeverWaits | src/LF/LF.c:4304-4345 | if exclusive and upgrade requests only try, every run is safe and loses no wake-up, for any number of threads |
| PoolLockProof.PoolIsSafe | src/LF/LF.c:5944-6685 | on every run every object of the pool excludes as a reader/writer lock should |
| PoolLockProof.PoolWakeups | src/LF/LF.c:6003-6462 | on every run no wake-up is lost though events move between objects while signals are on their way |
| PoolLockProof.PoolEvents | src/LF/LF.c:5747-5863 | on every run every event is in one place, an object has one exactly while somebody is registered, and every registered caller waits on it |
| EventTable.PowerTest | src/LF/LF.c:5238-5238 | the test of the counter against its predecessor holds exactly for powers of two |
| EventTable.FullIsFull | src/LF/LF.c:5238-5252 | the counter shows a full table exactly when the table is full |
| EventTable.MappingKept | src/LF/LF.c:5227-5330 | on every run no two events share an index, every index handed out is below 2^15 and maps to its event in the current and in every later table, and every slot below the counter is filled |
| LockWords.UnpackPack | src/LF/LF.c:253-308 | the macros read back every field that was packed |
| LockWords.Packed | src/LF/LF.c:253-308 | any two words are the packing of exactly the fields the macros read |
| LockWords.FlagsExact | src/LF/LF.c:272-285 | on any words a set or clear macro changes its own flag and no other field |
| LockWords.CountsUpExact | src/LF/LF.c:269-296 | on any words an increment adds one to its own field and leaves the others alone if and only if the field is below its largest value, also for the counter that lies across both words |
| LockWords.CountsDownExact | src/LF/LF.c:270-297 | a decrement of a nonzero field takes one from it and leaves the others alone |
| LockWords.TestsExact | src/LF/LF.c:289-308 | every test macro is nonzero exactly when its predicate holds of the fields |
| PackedLock.PackedRun | src/LF/LF.c:4134-4855 | on every run of fewer than 2^20 threads without a stale take, the macros of each step, in the order of the code, take the packed word through the packings of the abstract words |
| ObjectWords.ObjectFlagsExact | src/LF/LF.c:395-423 | on any words a set or clear macro of an object changes its own flag and no other field |
| ObjectWords.ObjectCountsUpExact | src/LF/LF.c:392-410 | an increment is exact if and only if its field is below its largest value |
| ObjectWords.ObjectCountsDownExact | src/LF/LF.c:393-411 | a decrement of a nonzero field is exact |
| ObjectWords.ObjectTestsExact | src/LF/LF.c:391-442 | every test macro is nonzero exactly when its predicate holds of the fields, also for the mask with a hole |
| ObjectWords.ObjectTestAll | src/LF/LF.c:434-439 | the test for anything ignores exactly the user flag, and the test of the whole first word is nonzero exactly for something active, waiting to write or upgrading |
| ObjectWords.EventExact | src/LF/LF.c:417-420 | attaching an event by adding its index is right if and only if none was attached, and detaching clears the index alone |
| PackedPool.PackedRun | src/LF/LF.c:5664-6685 | on every run of fewer than 2^15 - 1 callers with event indices below 2^15, the macros of each step, in the order of the code, take every object's packed words through the packings of its abstract words, and every field is read back as it is |
| PackedPool.PackedBranches | src/LF/LF.c:5696-6491 | on every such run the test macros let an asking or a registered caller in exactly when the fields do |
| TimerWheel.CheckKeepsAll | src/NetworkLib/inc/EventQueue.h:52-77 | a check loses and duplicates no event and makes none early |
| TimerWheel.SafeCheck | src/NetworkLib/inc/EventQueue.h:52-77 | a safe check leaves every due event in bucket 0 and the wheel as timely as it was |
| TimerWheel.CloseChecksSafe | src/NetworkLib/src/NetProcessor.cpp:266-303 | checks at most 256 ticks apart are safe |
| TimerWheel.UnsafeCheck | src/NetworkLib/inc/EventQueue.h:52-77 | for every unsafe gap, enqueuing and checking lead to a wheel with an event that this check passes over though it is due |
| TimerWheel.NothingMissedExactly | src/NetworkLib/inc/EventQueue.h:52-77 | after any life of the queue with safe checks, the next check misses no due event if and only if it is in the same 256-tick block or an odd number of blocks on |
| TimerWheel.PassOver | src/NetworkLib/inc/EventQueue.h:27-77 | constructing a queue, enqueuing one event and checking twice an unsafe distance apart leaves it due and not in bucket 0 |
| TimerWheel.RunSound | src/NetworkLib/inc/EventQueue.h:27-77 | every life of the queue with safe checks keeps every event in a bucket that is visited before it is due |
| TimerWheel.PriorityEventQueue.constructor | src/NetworkLib/inc/EventQueue.h:87-90 | a new queue is empty and on time |
| TimerWheel.PriorityEventQueue.Enqueue | src/NetworkLib/inc/EventQueue.h:27-34 | the event is added, what is due goes to bucket 0, and the wheel stays timely |
| TimerWheel.PriorityEventQueue.Dequeue | src/NetworkLib/inc/EventQueue.h:43-50 | the oldest event of bucket 0, or none exactly when it is empty, and nothing else changes |
| TimerWheel.PriorityEventQueue.Check | src/NetworkLib/inc/EventQueue.h:52-77 | the loops over bits and buckets compute the rebalancing above; no event is lost, and after a safe check everything due is in bucket 0 |
| TimerWheel.PriorityEventQueue.Redistribute | src/NetworkLib/inc/EventQueue.h:61-75 | every event of a visited bucket goes to the lowest bucket it fits |
| NetBuffers.NetBuffer.SetBuffer | src/NetworkLib/src/NetBuffer.cpp:51-58 | an empty ring starts over with other memory |
| NetBuffers.NetBuffer.IsEmpty | src/NetworkLib/src/NetBuffer.cpp:98-101 | true exactly when nothing is unread, also for a full ring |
| NetBuffers.NetBuffer.ReadAvail | src/NetworkLib/src/NetBuffer.cpp:126-136 | the number of unread bytes |
| NetBuffers.NetBuffer.WriteAvail | src/NetworkLib/src/NetBuffer.cpp:138-141 | the number of free bytes |
| NetBuffers.NetBuffer.ContiguousReadAvail | src/NetworkLib/src/NetBuffer.cpp:143-156 | a true prefix of the unread bytes in one piece, empty only if there are none |
| NetBuffers.NetBuffer.ContiguousWriteAvail | src/NetworkLib/src/NetBuffer.cpp:158-174 | a true prefix of the free bytes in one piece, empty only if there are none |
| NetBuffers.NetBuffer.Consume | src/NetworkLib/src/NetBuffer.cpp:103-112 | drops the front of the unread bytes |
| NetBuffers.NetBuffer.Fill | src/NetworkLib/src/NetBuffer.cpp:114-124 | appends the front of the free bytes to the unread ones |
| NetBuffers.NetBuffer.CopyFrom | src/NetworkLib/src/NetBuffer.cpp:176-192 | writes into the free bytes at an offset, round the end, and touches nothing unread |
| NetBuffers.NetBuffer.CopyTo | src/NetworkLib/src/NetBuffer.cpp:194-209 | reads the unread bytes at an offset, round the end |
| Framing.HeaderRoundTrip | src/NetworkLib/src/NetPacket.cpp:450-492 | a header is read back from its bytes, whatever follows |
| Framing.ParseAppend | src/NetworkLib/src/NetCxn.cpp:179-310 | parsing a stream in two parts gives what parsing it at once gives, and a malformed stream stays malformed |
| Framing.RoundTrip | src/NetworkLib/src/NetPacket.cpp:389-520 | any packets serialized one after the other parse to the same packets, for any checksum function |
| Framing.PrefixParses | src/NetworkLib/src/NetCxn.cpp:179-310 | any beginning of such a stream parses to a beginning of the packets |
| Framing.RestIncomplete | src/NetworkLib/src/NetCxn.cpp:179-310 | what is left after parsing holds no whole packet |
| Framing.NextPacket | src/NetworkLib/src/NetCxn.cpp:179-310 | in a stream of packets that was cut anywhere, what is left begins with the header of the first packet not handed on |
| Framing.NeverTooLargeExactly | src/NetworkLib/src/NetPacket.cpp:450-478 | no stream announces a packet of more than 2^30 bytes if and only if the largest size let through is at most that |
| Framing.ConfiguredSafely | src/RSL/src/rslconfig.cpp:118-119 | which holds of a configured number of megabytes if and only if it is below 1024 modulo 4096 |
| Receiver.PoolSize | src/NetworkLib/src/BufferPool.cpp:45-60 | a pool buffer is large enough and less than twice as large |
| Receiver.PoolFitsInt | src/NetworkLib/src/BufferPool.cpp:14-28 | the memory for a packet has a size that is positive as an int if and only if the packet has at most 2^30 bytes |
| Receiver.Connection.constructor | src/NetworkLib/src/NetCxn.cpp:11-60 | a new connection has received and delivered nothing and has a ring of at least a header |
| Receiver.Connection.Receive | src/NetworkLib/src/NetVConnection.cpp:749-766 | after any completed read the packets handed on are those of the stream so far, only an incomplete packet is buffered, the connection is closed exactly on a malformed stream and lost exactly on a packet that is too large |
| Receiver.Connection.ReadReady | src/NetworkLib/src/NetCxn.cpp:179-310 | the reassembly loop, with its lengths compared as ints, hands on every whole packet and stops at an incomplete one |
| Receiver.Connection.PeekHeader | src/NetworkLib/src/NetCxn.cpp:179-310 | the header is decoded once and checked, or the connection closed |
| Receiver.Connection.TakePacket | src/NetworkLib/src/NetCxn.cpp:179-310 | a whole packet is checked, removed and handed on, from the ring or from its own memory |
| Receiver.Connection.ReadMoreData | src/NetworkLib/src/NetCxn.cpp:312-325 | a packet larger than the ring goes on in larger memory with its bytes kept, unless the size of that memory is negative as an int |
| Receiver.Connection.EndToEnd | src/NetworkLib/src/NetCxn.cpp:179-325 | of any packets sent, however the stream was cut, the same packets arrive in order, and all of them once all bytes have; the connection is lost exactly when it comes to the header of one that is too large |
| Receiver.Connection.LostExactly | src/NetworkLib/src/NetCxn.cpp:211-296 | a connection is lost if and only if its stream announces a packet of more than 2^30 bytes, so never if none is let through |
| Receiver.Connection.ReadsOn | src/NetworkLib/src/NetVConnection.cpp:655-665 | an open connection always has room for the next read and something to read |
| Receiver.Lost | src/NetworkLib/src/NetCxn.cpp:312-325 | any connection that lets larger packets through is lost on the twenty bytes of a header |
| SendPathOrder.OnePlaceOneCallback | src/NetworkLib/src/NetCxn.cpp:62-177 | on every run every packet is in one queue, in one thread's hands, called back once or refused; the time-out queue holds exactly those in send queues; the packet being written heads its queue |
| SendPathOrder.RetryIsComing | src/NetworkLib/src/NetPacketSvc.cpp:262-386 | on every run every packet in the retry queue has a retry scheduled, about to be scheduled or in progress for its peer |
| SendPathOrder.OrderSurvives | src/NetworkLib/src/NetPacketSvc.cpp:262-386 | on every run a packet whose Send began after another to the same peer was in line never enters the send queue first |
| TimeoutQueue.Partition | src/NetworkLib/src/PacketUtil.cpp:178-222 | what a pass takes and what it leaves are the queue, split exactly by being due on a connection that can be locked |
| TimeoutQueue.TimeoutHandler.Enqueue | src/NetworkLib/src/PacketUtil.cpp:127-153 | the queue stays sorted, the packet goes behind those due no later, nothing is lost |
| TimeoutQueue.TimeoutHandler.Remove | src/NetworkLib/src/PacketUtil.cpp:155-160 | that packet is gone and the others keep their order |
| TimeoutQueue.TimeoutHandler.EventTimeout | src/NetworkLib/src/PacketUtil.cpp:178-222 | the pass that starts over at the head takes, in order, exactly what is due and can be locked |
| LogRecords.AddVote | src/RSL/src/logfile.cpp:271-286 | replacing or adding the last entry keeps the index right |
| LogRecords.AddOther | src/RSL/src/logfile.cpp:264-287 | a record that is no vote keeps it right |
| LogRecords.OffsetsGrow | src/RSL/src/logfile.cpp:290-311 | a right index has ordered offsets inside the file, strictly growing if no record is empty |
| LogRecords.OffsetsAligned | src/RSL/src/logfile.cpp:263-287 | if records are whole pages its offsets are page aligned |
| LogRecords.LatestIsThere | src/RSL/src/logfile.cpp:290-295 | at a decree's offset stands its latest vote, whole |
| LogRecords.Tiled | src/RSL/src/logfile.cpp:303-311 | with ordered offsets every byte from the first indexed vote to the end belongs to exactly one decree's span |
| LogRecords.LengthsAddUp | src/RSL/src/logfile.cpp:303-311 | the spans of all decrees add up to the part of the file from the first indexed vote on |
| LogFiles.WriteMore | src/RSL/src/logfile.cpp:60-109 | two contiguous writes are one write of both |
| LogFiles.RoundUpExact | src/RSL/src/logfile.h:15-18 | rounding to pages is right exactly up to the last page of the 32-bit range, and gives 0 beyond |
| LogFiles.CountCanWrap | src/RSL/src/logfile.cpp:60-109 | there are aligned buffers with which the 32-bit count of pending bytes wraps |
| LogFiles.LogFile.Write | src/RSL/src/logfile.cpp:60-109 | the calls are contiguous from the end of the data with at most 512 segments and 2 MB each; what they write is all the buffers in order if and only if the 32-bit count never wraps; it stops at exactly the first misaligned buffer or failing call and touches nothing before |
| LogFiles.LogFile.WritePages | src/RSL/src/logfile.cpp:78-98 | cutting a buffer into pages and issuing full calls keeps the account of what is written and pending |
| LogFiles.LogFile.AddMessage | src/RSL/src/logfile.cpp:263-287 | the message becomes the next record of whole pages and the index stays right; no record is empty afterwards if and only if none was before and the length is between 1 and 2^32 - 512; a vote is refused exactly if it is neither first nor for the last decree or the next |
| LogFiles.LogFile.HasDecree | src/RSL/src/logfile.cpp:297-301 | exactly the decrees with a vote, and decree 0 of a log without votes |
| LogFiles.LogFile.GetOffset | src/RSL/src/logfile.cpp:289-295 | the start of the latest vote; fails exactly outside the indexed decrees |
| LogFiles.LogFile.GetLengthOfDecree | src/RSL/src/logfile.cpp:303-311 | the span to the next decree or the end, which is not negative, right if and only if it is below 2^32 |
| LogFiles.LogFile.IndexTiles | src/RSL/src/logfile.cpp:263-311 | after any accepted messages the offsets are page aligned and ordered, strictly if every length was between 1 and 2^32 - 512, and the spans of the decrees voted on tile the file from the first indexed vote to the end of the data |
| LogFiles.LogFile.VoteOnDisk | src/RSL/src/logfile.cpp:289-295 | the disk holds the latest vote of a decree at its offset |
| LogFiles.LogFile.Append | src/RSL/src/legislator.cpp:4837-4853 | writing a message and entering it makes its buffers the next record, or records nothing |
| LogFiles.LogFile.Read | src/RSL/src/logfile.cpp:192-261 | pieces of at most 32 MB, all but the last aligned to 1 MB, give exactly the bytes on the disk, or fail exactly past its end |

## Left out

- Reconfiguration, checkpoints after the first one, truncation of old logs and copying state between replicas. A promise takes one page of the log and a vote as many as its command, which is what a file that is written over from its start depends on.
- The heartbeat thread, status messages, elections by time: a replica may try to prepare or fall back at any time.
- 32-bit overflow of ballot identifiers, and records cut short by a crash in the middle of a write.
- ConsensusRuns.RestartRecovers: restores the accepted command only once its decree is decided, because a vote made up while learning and a late vote of the same decree and ballot may differ, and only the first of them is logged; neither can then be decided under that ballot.
- The recursive mode of the reader/writer and pool locks, destroying locks and pools, and the inline assembly of 32-bit builds.
- Wrap-around of the 24-bit modification counters: a pointer's counter is taken not to come round during one operation.
- LFProcessMultipleObjects and the peek operations.
- PackedPool.PackedRun: takes event indices to be below 2^15, which EventTable.MappingKept shows of the table that hands them out.
- EventTable.MappingKept: allocation of events and tables succeeds.
- The bucket number kept in an event and removal by it, EarliestTimeout, and tick bits above the ninth, which the wheel never looks at.
- The byte layout of marshalled headers (any fixed-width encoding does) and the checksum polynomial (any function does).
- Receiver.Connection.constructor: the read buffer has at most 2^30 bytes, so that its size is positive as an int; the code only asserts that it holds a header.
- Suspending and resuming receives, stopping the service, SSL connections, and callbacks that send again.
- TimeoutQueue.TimeoutHandler.EventTimeout: the connections that cannot be locked are taken to be the same throughout one pass.
- LogFiles.LogFile.AddMessage: fewer than 2^32 decrees in one file, and the message is on the disk when it is entered.
- LogFiles.LogFile.Append: the buffers have the rounded length of the message, as the callers pass them.
- Everything that only forwards to the operating system: sockets, completion ports, file handles, memory allocation.
