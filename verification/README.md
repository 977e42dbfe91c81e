# Models and proofs of the coroutine runtime and its consensus example

This project models the parts of the repository with the most state and branching, and proves what
they are for over every input, every interleaving or every run.

* **Consensus** (`consensus_*.dfy`). The Chandra–Toueg servers as a step relation: any number of
  servers, any delivery order, delay, loss, timeout and stop. `consensus_server.dfy` is one server as
  a machine, `consensus_system.dfy` the servers with the network, `consensus_invariant.dfy` the
  inductive invariant, `consensus_proposals.dfy` where colours come from, `consensus_safety.dfy` the
  guarantees, `consensus_sends.dfy` which packets every server has sent, `consensus_inbox.dfy` what it
  keeps and when it has counted enough, `consensus_choice.dfy` which colour a leader takes.
  `consensus_process.dfy` is the coroutine
  as the program writes it, with nested loops, proved equal to the machine. `consensus_nancy.dfy` is
  the observer.
* **Mutex** (`mutex_*.dfy`). The packed lock word, the queue with cancelled waiters, the fast paths and
  the latched sections, as interleaved steps; what becomes of one request over a run; and the object
  whose methods compose those steps.
* **Events and quorums** (`event_graph.dfy`, `event_posts.dfy`, `event_claims.dfy`,
  `event_runtime.dfy`). The listener and member lists of `any`/`all` and the cascade that keeps them,
  against a threshold formula; which coroutines are posted, claimed by the triggering driver, or left.
* **Races** (`race_model.dfy`, `race_meaning.dfy`, `race_tasks.dfy`, `race_runs.dfy`). Nested `race`, `first`, `attempt` and
  `forward` over guarded receives as trees, the promises whose flags carry them, and whole runs.
* **Timers** (`circular_int.dfy`, `heap_order.dfy`, `timer_heap.dfy`). The d-ary heap, for every arity
  from two, with removal from the middle and wrapping tie-break stamps.
* **File descriptors** (`watch_lists.dfy`, `update_list.dfy`, `interest_table.dfy`,
  `watch_table.dfy`, `watch_epochs.dfy`). Lists threaded through arrays, the packed table of registered
  masks, and the epochs that tell stale notifications.
* **Migration** (`migration.dfy`). The cross-thread queue and the sleep/wake handshake.
* **Framing** (`framing.dfy`, `message_stream.dfy`). Length-prefixed messages over arbitrary chunks.
* **Query strings** (`query_spec.dfy`, `http_info.dfy`, `query_encode.dfy`). The one-pass scanner with its
  lazily flushed buffer, against split-and-decode, and against what a sender encodes.

`basics.dfy` holds types shared by several of these.

Randomness, clocks, the network and the kernel are parameters or arbitrary choices of a step: what a
message port or a system call delivers, when a timer or failure detector fires, which events have
become empty. Integers are unbounded except where the width matters: the mutex word, timer stamps, the
probe generator and length prefixes wrap as 32-bit numbers, and the registered masks are bit vectors.

## Findings

* `first_message_length` adds four to a 32-bit length in 32-bit arithmetic, while `send` accepts every
  length up to 2^32 - 1. A message comes out as it went in exactly when its length plus four is below
  2^32 (`Framing.FrameRoundTrip`).
* An `attempt` whose canceller is itself a receiving task can take an item and hand it to nobody. No
  item is ever lost exactly when every `attempt` is cancelled by events only
  (`RaceModel.ConservativeExactly`).
* A driver that triggers an event itself, from a timer or a descriptor, claims one coroutine of the whole
  cascade and afterwards runs only those on the event. Of its own coroutines that the cascade reaches, all
  are resumed exactly if all are on the event itself or there is at most one
  (`EventRuntime.Events.RunEvent`). Otherwise some are left on a triggered quorum, are posted to nobody, and
  stay there: two coroutines, one waiting for a timer and one for any of a set with that timer, are enough
  (`EventRuntime.LeaveBehind`).
* The shared count of the mutex has 28 bits. The shared lock that makes it 2^28 empties the word, and an
  exclusive lock is then granted beside it (`MutexSafety.ExclusionFails`). Exclusion holds in every run
  with at most m shared holders exactly if m is below 2^28 (`MutexSafety.ExclusionExactly`).
* A positive colour round always has its PROPOSE, so a majority of positive ACKs is enough to fix the
  colour of every later PROPOSE (`ConsensusSafety.Locking`).
* The epoch of a descriptor does not come back within fewer than 2^32 - 2 closes and emptied updates
  (`WatchEpochs.EpochIsNew`), and may come back with exactly that many (`WatchEpochs.EpochReturns`).
* The stamp comparison is an order exactly on sets of stamps that lie less than half the range after one
  of them (`CircularInt.OrderedExactly`).

## Model

| member | source | states |
|---|---|---|
| `ConsensusServer.SenderBlind` | examples/ctconsensus.cc:78-207 | a server's own step depends on stashed messages only through their contents: who sent them changes neither its state nor what it sends |
| `ConsensusServer.AcceptSenderBlind` | examples/ctconsensus.cc:78-114 | the same for a message taken in `receive` |
| `ConsensusInvariant.RunInv` | examples/ctconsensus.cc:119-207 | the inductive invariant (one packet per sender, round and kind; counters count sent packets; every choice rests on a majority; every decision is locked) holds in every state of every run |
| `ConsensusProposals.RunBacked` | examples/ctconsensus.cc:136-170 | in every state of every run, each positive colour round held or reported and each positive ACK has its PROPOSE among the packets sent |
| `ConsensusProposals.RecordIsTrue` | examples/netsim.hh:121-153 | a packet recorded as sent was in flight in some state of the run |
| `ConsensusSafety.MajoritiesMeet` | examples/ctconsensus.cc:129-141 | two sets of more than n/2 servers share a member |
| `ConsensusSafety.BasisSeesLock` | examples/ctconsensus.cc:129-147 | once a majority acknowledged round r, the choice of any later round rests on a colour round of at least r |
| `ConsensusSafety.LockedColorWins` | examples/ctconsensus.cc:129-189 | once a majority acknowledged round r, every later choice is the colour chosen in r |
| `ConsensusSafety.Agreement` | examples/ctconsensus.cc:119-207 | all DECIDE messages ever in flight in a run carry one colour, decided by majority or relayed |
| `ConsensusSafety.DecidedServersAgree` | examples/ctconsensus.cc:182-198 | servers that have decided, at whatever points of the run, hold the same colour |
| `ConsensusSafety.DecidedServerHoldsDecision` | examples/ctconsensus.cc:182-206 | a server that has decided, at any point of the run, holds the colour of every DECIDE of the run |
| `ConsensusSafety.Locking` | examples/ctconsensus.cc:149-189 | if a majority sent a positive ACK for round r, one colour was proposed in r, and every PROPOSE of round r or later carries it |
| `ConsensusSafety.OneProposalPerRound` | examples/ctconsensus.cc:149-155 | PROPOSEs of one round carry one colour |
| `ConsensusSafety.CounterSoundness` | examples/ctconsensus.cc:131-189 | `received_prepare` and `success` are numbers of distinct servers that sent a PREPARE, or a positive ACK, for the leader's current round, although messages carry no sender |
| `ConsensusSafety.Validity` | examples/ctconsensus.cc:119-207 | every colour prepared, proposed or decided is an initial colour |
| `ConsensusSafety.HeldColorsAreInitial` | examples/ctconsensus.cc:137-166 | every colour a server holds is an initial colour |
| `ConsensusSafety.ColorRoundMeans` | examples/ctconsensus.cc:137-167 | a positive colour round names a round in which exactly the colour held was proposed: a PROPOSE with it was in flight, and every PROPOSE of that round carries it |
| `ConsensusSafety.ReportsAreProposed` | examples/ctconsensus.cc:125-127 | the colour a PREPARE reports was proposed in its colour round, and a positive ACK answers a PROPOSE of its round |
| `ConsensusSafety.DecisionWasProposed` | examples/ctconsensus.cc:172-206 | every colour decided was proposed in a round that a majority acknowledged |
| `ConsensusSafety.Unanimity` | examples/ctconsensus.cc:298-310 | unanimous starts force that decision |
| `ConsensusSafety.NancyHearsDecides` | examples/ctconsensus.cc:198-206 | only DECIDEs are addressed to the observer |
| `ConsensusSends.RoundsComplete` | examples/ctconsensus.cc:119-194 | every round a server has left behind is complete on the wire: its PREPARE and an ACK to server `r % n`, and from that server one and the same PROPOSE to every server |
| `ConsensusSends.LeaderProposes` | examples/ctconsensus.cc:149-155 | a leader past Phase 3 has sent one PROPOSE of its round to each of the n servers |
| `ConsensusSends.DecisionIsTold` | examples/ctconsensus.cc:197-206 | a server that has returned sent its colour to the observer and to every other server |
| `ConsensusInbox.NothingOverlooked` | examples/ctconsensus.cc:78-105 | `receive` turns to its port only when no stashed message would do, and then nothing stashed is old |
| `ConsensusInbox.KeptUntilWanted` | examples/ctconsensus.cc:99-105 | a message of the present round or a later one stays stashed until the server waits for that kind in that round, or has left the round, or has decided |
| `ConsensusInbox.ChoiceIsMajority` | examples/ctconsensus.cc:131-147 | Phase 2 ends with exactly n/2 + 1 PREPAREs of the round |
| `ConsensusChoice.ChoiceFollowsReports` | examples/ctconsensus.cc:129-147 | if no counted PREPARE reports a later colour round than the leader's own PREPARE, the leader keeps its colour; otherwise it takes that of the latest |
| `ConsensusInbox.DecidesExactly` | examples/ctconsensus.cc:172-189 | Phase 5 ends with exactly n/2 + 1 answers counted, in a decision exactly if all are positive and in the next round otherwise; or with a DECIDE heard |
| `ConsensusNancy.RequiredConsensus` | examples/ctconsensus.cc:299-310 | the setup loop requires a colour exactly when all initial colours are that one |
| `ConsensusNancy.Observe` | examples/ctconsensus.cc:219-273 | the observer approves exactly if more than n/2 messages came, all well-formed, of one colour, and of the required one |
| `ConsensusNancy.NancyNeverObjects` | examples/ctconsensus.cc:239-251 | what reaches her in any run passes each of her checks |
| `ConsensusProcess.Process.Take` | examples/ctconsensus.cc:79-90 | the next message comes from the part of the stash present at the call, then from the port, as in the machine |
| `ConsensusProcess.Process.Receive` | examples/ctconsensus.cc:78-114 | the receive loop does what the machine does until the wanted message, a decision or a timeout |
| `ConsensusProcess.Process.Sort` | examples/ctconsensus.cc:92-108 | one message in `receive`: a DECIDE is adopted; an unwanted one is stashed at the back if it is not old, and dropped if it is; the wanted one is returned |
| `ConsensusProcess.Process.PopStash` | examples/ctconsensus.cc:83-86 | takes the oldest stashed message |
| `ConsensusProcess.Process.Prepare` | examples/ctconsensus.cc:121-127 | Phase 1 sends one PREPARE with the colour and its round to server `round % n` |
| `ConsensusProcess.Process.CollectPrepares` | examples/ctconsensus.cc:131-147 | the Phase 2 loop ends as the machine does |
| `ConsensusProcess.Process.BroadcastProposal` | examples/ctconsensus.cc:149-155 | the Phase 3 loop sends one PROPOSE of the round and colour to each server from 0 to n - 1, as the machine does |
| `ConsensusProcess.Process.AnswerProposal` | examples/ctconsensus.cc:157-170 | Phase 4 adopts a proposal or reports a timeout, and sends that answer to server `round % n`, as the machine does |
| `ConsensusProcess.Process.CollectAnswers` | examples/ctconsensus.cc:172-189 | the Phase 5 loop decides, breaks or goes on as the machine does |
| `ConsensusProcess.Process.Announce` | examples/ctconsensus.cc:197-206 | a decided server sends one DECIDE to the observer and then one to each other server in order |
| `ConsensusProcess.Process.Consensus` | examples/ctconsensus.cc:119-207 | on any script of arrivals and timer expiries the coroutine sends what the machine sends and stops where it stops |
| `MutexSafety.RunInv` | cotamer/cotamer.cc:277-328 | every interleaving of fast paths, latched sections and cancellations keeps the mutex invariant, as long as shared holders stay below 2^28 |
| `MutexSafety.MutualExclusion` | cotamer/cotamer.cc:277-328 | an exclusive grant never coexists with another grant, as long as shared holders have stayed below 2^28 |
| `MutexSafety.WordDecodes` | cotamer/cotamer_impl.hh:2101-2168 | with the latch clear, the word's bits are exactly: kind of the front waiter, exclusive holder, number of shared holders; with it set, the latch holder's copy is exactly the lock part |
| `MutexSafety.NoStrandedWaiter` | cotamer/cotamer.cc:281-328 | with the latch clear, a nonempty queue means the lock is held in a way its front waiter cannot join |
| `MutexSafety.GrantGoesToFront` | cotamer/cotamer.cc:281-322 | a grant goes to the live front waiter, or to a newcomer when nobody waits |
| `MutexSafety.NoOvertaking` | cotamer/cotamer.cc:281-328 | while a request waits, only requests queued ahead of it are granted, whatever try-locks and cancellations occur |
| `MutexSafety.SharedCountWraps` | cotamer/cotamer_impl.hh:2128-2134 | the shared lock that makes the count 2^28 empties the word and lets an exclusive lock in |
| `MutexSafety.SharedCountReached` | cotamer/cotamer_impl.hh:2128-2134 | every shared count below 2^28 is reached by a run |
| `MutexSafety.ExclusionFails` | cotamer/cotamer_impl.hh:2101-2134 | some run, below the bound until its last two steps, ends with an exclusive and 2^28 shared holders |
| `MutexSafety.ExclusionExactly` | cotamer/cotamer_impl.hh:2101-2146 | exclusion holds in every run with at most m shared holders exactly if m is below 2^28 |
| `MutexRequests.RequestStep` | cotamer/cotamer.cc:281-322 | through any step a queued request keeps its kind and stays live until it is cancelled or granted in that kind |
| `MutexRequests.RequestKept` | cotamer/cotamer.cc:301-322 | over runs: a request made as shared or exclusive waits as that, or is granted as that |
| `MutexRequests.GrantedAsAsked` | cotamer/cotamer.cc:281-328 | whoever has the lock and has not unlocked holds it in the kind that was asked for |
| `MutexRequests.ExclusionAsAsked` | cotamer/cotamer.cc:277-328 | whoever called `lock` and has it is alone, as long as shared holders have stayed below 2^28 |
| `MutexRequests.HolderStep` | cotamer/cotamer.cc:324-328 | a holder stays one until it unlocks, and then holds nothing |
| `MutexRequests.CancelledNotGranted` | cotamer/cotamer.cc:281-299 | a request cancelled in the queue is never granted |
| `MutexObject.NotifyMeaning` | cotamer/cotamer.cc:281-299 | `notify_locked` removes a prefix of the queue, grants exactly its live requests, and stops only at a live request it cannot grant |
| `MutexObject.LockMeans` | cotamer/cotamer.cc:301-322 | by value: a lock section removes a prefix of the queue, grants its live requests, and then grants the newcomer or queues it last under its own kind |
| `MutexObject.UnlockMeans` | cotamer/cotamer.cc:324-328 | by value: an unlock section releases the caller and grants the live requests of a prefix of the queue |
| `MutexObject.Mutex.TryLock` | cotamer/cotamer_impl.hh:2101-2104 | succeeds exactly when nobody holds the lock or waits |
| `MutexObject.Mutex.TryLockShared` | cotamer/cotamer_impl.hh:2128-2134 | succeeds exactly when there is no exclusive holder and nobody waits; below 2^28 shared holders it keeps the invariant |
| `MutexObject.Mutex.NotifyLocked` | cotamer/cotamer.cc:281-299 | the loop performs the model's notify turns until they settle |
| `MutexObject.Mutex.LockImpl` | cotamer/cotamer.cc:301-322 | the call is the model's latched lock section; the caller holds the lock if granted at once, and is otherwise last in the queue under the kind it asked for |
| `MutexObject.Mutex.UnlockImpl` | cotamer/cotamer.cc:324-328 | the call is the model's latched unlock section; the caller is released and the requests that left the queue live hold the lock |
| `MutexObject.Mutex.Unlock` | cotamer/cotamer_impl.hh:2106-2114 | takes the fast path exactly when nobody waits |
| `MutexObject.Mutex.UnlockShared` | cotamer/cotamer_impl.hh:2136-2146 | takes the fast path exactly when nobody waits, or an exclusive request waits and another shared holder remains |
| `EventGraph.TriggeredMeans` | cotamer/cotamer_impl.hh:569-669 | between operations an event is triggered exactly if it was triggered explicitly or enough of its arguments, with multiplicity, are |
| `EventGraph.NoDeadLinks` | cotamer/cotamer_impl.hh:653-669 | between operations a triggered quorum has no members and is on no listener list |
| `EventGraph.CountIsFired` | cotamer/cotamer_impl.hh:594-649 | a quorum's counter is the number of its arguments that have triggered, once no cascade is under way |
| `EventGraph.AnyAndAll` | cotamer/cotamer_impl.hh:580-623 | a quorum of one means that some argument is triggered or null, a quorum of all its arguments that every one is |
| `EventGraph.ClaimIsFirst` | cotamer/cotamer_impl.hh:711-728 | the coroutine claimed is the first of the driver on the list |
| `EventGraph.KeptInOrder` | cotamer/cotamer_impl.hh:711-737 | the coroutines that stay keep their order |
| `EventRuntime.Events.NewEvent` | cotamer/cotamer_impl.hh:531-533 | a new event is untriggered and changes nothing else |
| `EventRuntime.Events.MakeQuorum` | cotamer/cotamer_impl.hh:580-623 | a new quorum is triggered at once exactly if enough of its arguments, null ones included, have triggered; no other event changes |
| `EventRuntime.Events.RemoveListener` | cotamer/cotamer_impl.hh:546-557 | removes one occurrence of a listener and nothing else |
| `EventRuntime.Events.CullMembers` | cotamer/cotamer_impl.hh:653-669 | removes every untriggered member and the matching listener entries, and leaves members that are still triggering |
| `EventRuntime.Events.CountMember` | cotamer/cotamer_impl.hh:628-640 | removes one occurrence of the triggered member and counts it |
| `EventRuntime.Events.TriggerMember` | cotamer/cotamer_impl.hh:628-649 | the same, then triggers the quorum if its threshold is reached |
| `EventRuntime.Events.SplitListeners` | cotamer/cotamer_impl.hh:711-737 | separates quorums from the coroutines that stay, in order; lists each home driver once, but not the triggering driver; that driver claims its first coroutine if its slot is empty |
| `EventRuntime.Events.TriggerUnlock` | cotamer/cotamer_impl.hh:696-765 | a whole cascade, recursing through any graph, restores the invariant and leaves nothing pending; no coroutine leaves its list but one claimed by the triggering driver, which claims from the event itself if it can, and gets no posts |
| `EventRuntime.Events.Trigger` | cotamer/cotamer_impl.hh:520-523 | triggering an event adds it to the explicit ones, loses no coroutine, and keeps the invariant, by which a newly triggered event is posted once to each driver with a coroutine on it and to no other; a second trigger does nothing |
| `EventRuntime.Events.IsTriggered` | cotamer/cotamer_impl.hh:472-475 | the stored flag answers the threshold formula |
| `EventRuntime.Events.Await` | cotamer/cotamer_impl.hh:536-544 | a coroutine is listed exactly if the event has not triggered |
| `EventRuntime.Events.DriverTrigger` | cotamer/cotamer_impl.hh:767-777 | on an untriggered event: triggers it for the driver, and returns the coroutine claimed |
| `EventRuntime.Events.TakeListed` | cotamer/cotamer_impl.hh:779-788 | on a triggered event: takes one coroutine of this driver off the list, or finds none |
| `EventRuntime.Events.RunEvent` | cotamer/cotamer.cc:157-166 | firing an event from its driver triggers exactly what the formula says and resumes coroutines at most once, all those on the event among them; of the others reached, those of other drivers are posted, and all of this driver's are resumed exactly if all are on the event or there is at most one |
| `EventRuntime.LeaveBehind` | cotamer/cotamer_impl.hh:719-730 | one timer and two coroutines suffice to leave one waiting on a triggered quorum after everything is drained |
| `EventClaims.NewlyIsReached` | cotamer/cotamer_impl.hh:628-649 | a cascade triggers exactly the events that the formula adds |
| `EventClaims.AllResumedExactly` | cotamer/cotamer_impl.hh:711-745 | the driver resumes all its woken coroutines exactly if all are on the event or there is at most one |
| `EventPosts.CascadesByNobody` | cotamer/cotamer_impl.hh:696-698 | a cascade that no driver started claims no coroutine and leaves none without a post |
| `EventRuntime.Events.RunCoroutines` | cotamer/cotamer.cc:93-96 | resumes each listed coroutine of this driver once and leaves the others |
| `EventRuntime.Events.Drain` | cotamer/cotamer.cc:90-97 | handles the oldest post and keeps one post for every driver still owed one |
| `EventRuntime.Events.DrainAll` | cotamer/cotamer.cc:90-97 | draining resumes every coroutine on a triggered event that its driver was posted exactly once, on its home driver, and no other; those left behind stay |
| `RaceModel.RaceConsumption` | cotamer/cotamer.cc:231-262 | resolving any nesting returns the head of a queue and removes exactly that item, or leaves every queue unchanged |
| `RaceMeaning.ResolveMeans` | cotamer/cotamer.cc:231-262 | a task completes exactly if it can: its queue holds an item, or some argument completes; its result is that item, or that of the first argument that completes; one that cannot complete leaves every queue as it was and waits again |
| `RaceMeaning.FindMeans` | cotamer/cotamer_impl.hh:1620-1635 | arguments are tried in order and the first that can complete wins |
| `RaceModel.ArgsConsumption` | cotamer/cotamer_impl.hh:1620-1635 | the same for the arguments of a combinator |
| `RaceModel.OnlyWinnerCompletes` | cotamer/cotamer_impl.hh:1620-1635 | contenders before the winner have not completed and those after it are untouched |
| `RaceModel.ConservativeExactly` | cotamer/cotamer_impl.hh:1736-1755 | no state of a task tree can lose an item exactly when every `attempt` in it is cancelled by events only |
| `RaceModel.ReceivingCancellerLoses` | cotamer/cotamer_impl.hh:1742-1755 | otherwise, with items on every queue, some state of the tree loses one |
| `RaceTasks.Tasks.ResolveTask` | cotamer/cotamer.cc:231-258 | the loop over promise flags, recursing through forwarded tasks and combinators, ends with the tree, the queues and the answer that resolution of the tree gives, and touches no other promise |
| `RaceTasks.Tasks.FindArgs` | cotamer/cotamer_impl.hh:1620-1635 | the same for the arguments of a combinator, tried in order |
| `RaceTasks.Tasks.RunReceive` | examples/netsim.hh:155-177 | past its resolution point a receive takes the head of its queue, or blocks again if another consumer took it |
| `RaceTasks.Tasks.RunForward` | cotamer/cotamer.cc:247-257 | a task that forwards runs on exactly if the forwarded one resolves |
| `RaceTasks.Tasks.RunRace` | cotamer/cotamer_impl.hh:1807-1819 | a pass of the `race` loop completes with the first argument that resolves, or waits again |
| `RaceTasks.Tasks.RunAttempt` | cotamer/cotamer_impl.hh:1741-1755 | a pass of the `attempt` loop completes with the result of its first argument, with none if cancelled, or waits again |
| `RaceTasks.Tasks.ResolutionPoint` | cotamer/cotamer_impl.hh:1073-1085 | stopping at a resolution point also stops every task that awaits by forwarding, and nothing else |
| `RaceRuns.ItemsConserved` | examples/netsim.hh:139-177 | in every run, what its actions sent to a port is what resumed consumers were handed, in order and once each, then what is still queued |
| `RaceRuns.ResumeMeans` | cotamer/cotamer.cc:231-262 | a consumer that resumes a task gets its result exactly if the task can complete; otherwise the task waits again in its place |
| `RaceRuns.TasksCounted` | cotamer/cotamer_impl.hh:1620-1635 | in every run the tasks present are those started less those completed or dropped |
| `CircularInt.LessMeans` | cotamer/circular_int.hh:134-147 | one stamp precedes another exactly if their difference modulo 2^32 is at least 2^31 |
| `CircularInt.LessIsOlder` | cotamer/circular_int.hh:134-147 | within half the range behind the newest stamp, the comparison is by age |
| `CircularInt.OrderedExactly` | cotamer/circular_int.hh:134-147 | the comparison is a strict total order on a set of stamps exactly when all lie less than half the range after one of them |
| `CircularInt.StampIsRemainder` | cotamer/timer_heap.hh:178-179 | the stamp of the k-th insertion is k modulo 2^32 |
| `CircularInt.StampsApart` | cotamer/circular_int.hh:134-147 | stamps of insertions less than 2^32 apart are as far apart as their numbers |
| `HeapOrder.ChildrenAreExact` | cotamer/timer_heap.hh:115-129 | for every arity from two, the child range of an index is exactly the indexes whose parent it is |
| `HeapOrder.QuotientDivides` | cotamer/timer_heap.hh:115-118 | the quotient in the parent function is integer division |
| `HeapOrder.RootIsLeast` | cotamer/timer_heap.hh:84-100 | heap order makes the top the least of all |
| `TimerHeap.TopIsEarliest` | cotamer/timer_heap.hh:84-113 | the top has an earlier deadline than any other timer, or the same and an earlier insertion number |
| `TimerHeap.Timers.SiftUp` | cotamer/timer_heap.hh:181-189 | restores heap order above a disturbed element and keeps the multiset |
| `TimerHeap.Timers.Smallest` | cotamer/timer_heap.hh:207-214 | finds the first of an element and its children |
| `TimerHeap.Timers.SiftDown` | cotamer/timer_heap.hh:206-220 | restores heap order below a disturbed element and keeps the multiset |
| `TimerHeap.Timers.HardCull` | cotamer/timer_heap.hh:192-228 | removes exactly the element at any position and keeps heap order |
| `TimerHeap.Timers.Cull` | cotamer/timer_heap.hh:102-107 | removes only empty timers, until the top is live |
| `TimerHeap.Timers.AutoCull` | cotamer/timer_heap.hh:160-171 | random probing removes only empty timers and keeps heap order |
| `TimerHeap.Timers.Expand` | cotamer/timer_heap.hh:142-154 | growth keeps every element in place |
| `TimerHeap.Timers.Emplace` | cotamer/timer_heap.hh:156-190 | adds the timer under the next insertion number, loses only empty ones, and keeps heap order while the timers held are among the last 2^31 insertions |
| `TimerHeap.Timers.Pop` | cotamer/timer_heap.hh:131-134 | removes the earliest timer; ties go to the smallest insertion number even when stamps wrap |
| `TimerHeap.Timers.PopDue` | cotamer/cotamer.cc:158-161 | takes the earliest timer exactly if it is due; when it takes none, none is due |
| `TimerHeap.Timers.TakeDue` | cotamer/cotamer.cc:157-161 | takes exactly the timers due, by deadline and then by insertion number |
| `WatchLists.ChainAcyclic` | cotamer/event_handle.hh:123-148 | a chain of slots that ends visits no slot twice |
| `WatchLists.SlotConservation` | cotamer/event_handle.hh:144-154 | every slot is on exactly one of the free list, the descriptors' lists and the detached lists, once |
| `WatchLists.FilterPartitions` | cotamer/cotamer_impl.hh:1885-1905 | splitting a list loses and repeats nothing and separates watches whose mask meets the notification, or whose event is empty, from the others |
| `WatchLists.FilterInOrder` | cotamer/cotamer_impl.hh:1885-1905 | both halves keep the order of the list |
| `WatchLists.Split` | cotamer/cotamer_impl.hh:1885-1905 | after the walk both lists hold the wanted and the unwanted watches in order, and every slot is still on one list |
| `WatchLists.LiveMaskCovers` | cotamer/cotamer_impl.hh:1930-1940 | a mask covers every live watch exactly if it includes the computed one |
| `WatchTable.SplitChain` | cotamer/cotamer_impl.hh:1885-1905 | the pointer-chasing loop performs that split |
| `UpdateList.QueuedOnce` | cotamer/event_handle.hh:123-130 | no descriptor is on the update list twice |
| `UpdateList.QueuedExactly` | cotamer/event_handle.hh:123-137 | the update list holds each descriptor whose link is not clean once, and no other |
| `WatchTable.FdTable.HardEnsure` | cotamer/io.cc:44-67 | growth makes room and keeps every record |
| `WatchTable.FdTable.Enqueue` | cotamer/io.cc:139-142 | puts a descriptor on the update list once |
| `WatchTable.FdTable.Install` | cotamer/io.cc:116-167 | a watch is appended to its descriptor's list, in a recycled slot if there is one; a record of another, closed body first fires its watches and its epoch becomes one more modulo 2^32; all other lists are unchanged and the descriptor is queued |
| `WatchEpochs.EpochIsNew` | cotamer/cotamer_impl.hh:1942-1958 | from 1 to 2^32 - 3 closes or emptied updates on, however the epoch is raised in between, it is not the old one |
| `WatchEpochs.EpochReturns` | cotamer/cotamer_impl.hh:1942-1958 | the bound is exact |
| `WatchEpochs.StaleAfterClose` | cotamer/io.cc:169-194 | after a close, whatever is installed on the descriptor since, a notification under its old epoch finds no watch |
| `WatchEpochs.StaleAfterEmptied` | cotamer/cotamer_impl.hh:1942-1958 | the same after an update that found nothing to wait for |
| `WatchTable.FdTable.TakeWatchList` | cotamer/cotamer_impl.hh:1876-1912 | detaches exactly the wanted watches, keeps the others in order, and does nothing for a stale epoch |
| `WatchTable.FdTable.PopWatchListEvent` | cotamer/cotamer_impl.hh:1914-1924 | returns the first event of a detached list, notes the mask delivered to it, and recycles its slot |
| `WatchTable.FdTable.FdClose` | cotamer/io.cc:169-194 | the watches of a closed descriptor fire oldest first, their slots are recycled and its epoch is one more modulo 2^32; otherwise nothing changes |
| `WatchTable.FdTable.WatchListMask` | cotamer/cotamer_impl.hh:1930-1940 | the loop computes the mask of the live watches |
| `WatchTable.FdTable.PopUpdate` | cotamer/cotamer_impl.hh:1942-1958 | takes the first descriptor off the update list with its live mask; with nothing to wait for its epoch is one more modulo 2^32, otherwise at least 2 |
| `InterestTable.RecordedIsUpdate` | cotamer/io.cc:348-365 | the packed table behaves as a map from descriptor to mask |
| `InterestTable.RecordCounts` | cotamer/io.cc:364-370 | the count stays the number of nonzero entries |
| `WatchTable.FdTable.ApplyFdUpdate` | cotamer/io.cc:344-371 | sets one entry, changes no other, and keeps the count exact |
| `WatchTable.FdTable.ApplyUpdates` | cotamer/cotamer.cc:109-112 | draining the update list sets the entry of every queued descriptor to its live mask and no other; then every live watch's mask is covered by its descriptor's entry |
| `WatchTable.FdTable.NotifyClose` | cotamer/io.hh:381-388 | after a close the descriptor's watches have fired and only its own entry is cleared; otherwise nothing changes |
| `Migration.NoLostWakeup` | cotamer/io.cc:373-396 | a driver asleep with work queued has a signal pending or a poster still on its way to signal |
| `Migration.SignalComes` | cotamer/cotamer.cc:17-46 | while the driver sleeps on, however threads interleave, such a poster stays on its way and is never blocked until the signal is set, at its third move at the latest |
| `Migration.PostsArriveInOrder` | cotamer/cotamer.cc:34-46 | in every run, what was queued is what the driver has taken from the front of `asap_`, then what is left there, then what it has in hand, then what is queued; closes likewise |
| `Migration.EveryPostArrives` | cotamer/cotamer.cc:17-46 | whatever the actions of a run started to post, as often as they did, is about to be queued by some thread, or processed, in `asap_`, in hand or queued |
| `Migration.WordIsExact` | cotamer/cotamer_impl.hh:1844-1857 | the lock bit is set exactly when somebody holds the lock, the flag only while something is queued or being taken, and the driver sleeps only with nothing to run |
| `Migration.SignalExactly` | cotamer/io.cc:373-396 | the signal is set exactly if some thread has signalled since the driver last read it |
| `Migration.LeavesEmpty` | cotamer/cotamer.cc:115-122 | the loop returns only with nothing queued |
| `Migration.LockExcludes` | cotamer/cotamer_impl.hh:1844-1857 | the driver lock has one holder |
| `Migration.SleepStartsEmpty` | cotamer/io.cc:377-388 | when the second look lets the driver sleep, nothing is queued |
| `Migration.RunInv` | cotamer/cotamer.cc:175-188 | the invariant holds in every state of every run, for any number of posting threads |
| `Framing.LengthRoundTrip` | examples/message_stream.hh:95-96 | the four length bytes decode to the length |
| `Framing.FrameBytes` | examples/message_stream.hh:95-97 | a frame is the four bytes of the length, least significant first, and the message |
| `Framing.FrameRoundTrip` | examples/message_stream.hh:138-167 | a frame comes out as its message exactly if its length plus four fits 32 bits |
| `Framing.ReceivePrefix` | examples/message_stream.hh:147-167 | bytes still to come do not change what `recv` returns |
| `Framing.ReceiveNext` | examples/message_stream.hh:147-167 | on any part of the stream `recv` waits, or returns the next message and leaves the rest |
| `Framing.ReceivedIsPrefix` | examples/message_stream.hh:70-213 | however writes and reads cut the stream, the messages that `recv` returned are a prefix of those given to `send`, and no frame is broken |
| `Framing.AllArrive` | examples/message_stream.hh:147-167 | once all bytes have arrived, `recv` has a message exactly while fewer were returned than sent |
| `MessageStream.Stream.Grow` | examples/message_stream.hh:86-94 | growth keeps the pending bytes |
| `MessageStream.Stream.Send` | examples/message_stream.hh:70-101 | appends one frame behind the pending bytes, in bounds; refused once the stream is closed |
| `MessageStream.Stream.WriterStep` | examples/message_stream.hh:107-136 | the kernel takes pending bytes from the front and no others |
| `MessageStream.Stream.Room` | examples/message_stream.hh:181-196 | keeps the pending bytes and always offers at least 512 bytes |
| `MessageStream.Stream.ReaderStep` | examples/message_stream.hh:169-213 | appends exactly the bytes the kernel gave |
| `MessageStream.Stream.Recv` | examples/message_stream.hh:147-167 | returns what the pending bytes say, and consumes exactly that message |
| `QuerySpec.ScanFresh` | cotamer/http.cc:272-333 | the one-pass scan computes split on `&`, drop empty, split at the first `=`, decode (section 5.1 of the WHATWG URL Standard, byte level) |
| `QueryEncode.HexMeans` | cotamer/http.cc:93-102 | the hexadecimal digits are those of `0123456789ABCDEF` and its lower-case form, and nothing else |
| `QueryEncode.HexPairMeans` | cotamer/http.cc:307-314 | the two digits of a byte, in either case, stand for that byte |
| `QueryEncode.DecodeEncode` | cotamer/http.cc:307-321 | any bytes, percent-encoded with any set of bytes left alone and spaces as `+` or `%20`, decode to themselves |
| `QueryEncode.FormRoundTrip` | cotamer/http.cc:275-332 | any list of parameters, encoded and joined by `=` and `&`, is read back as it was |
| `QuerySpec.ScanName` | cotamer/http.cc:297-321 | the same from the middle of a name |
| `QuerySpec.ScanValue` | cotamer/http.cc:307-321 | the same from the middle of a value |
| `HttpInfo.EscapeTest` | cotamer/http.cc:307-310 | the test that looks at the byte past the query holds exactly when a whole escape is left |
| `HttpInfo.Emit` | cotamer/http.cc:307-320 | decodes one symbol into the text, flushing only where it must, and never passes the end |
| `HttpInfo.ScanQuery` | cotamer/http.cc:275-332 | the offset pairs stand for exactly the parameters of the query |
| `HttpInfo.SplitUrl` | cotamer/http.cc:234-270 | path, query and fragment are cut at the first `?` before the first `#` and at that `#`; a malformed target gives three empty parts |
| `HttpInfo.PartsMeans` | cotamer/http.cc:234-270 | by the bytes: three parts that follow one another, cut at the first `#` and at the first `?` before it, or none for a malformed target |
| `HttpInfo.MakeInfo` | cotamer/http.cc:228-335 | the parameters of a target are those of its query part |
| `QueryEncode.SendAndParse` | cotamer/http.cc:228-335 | whatever parameters a sender encodes into a target, `make_info` finds exactly those |
| `HttpInfo.SafeMeans` | cotamer/http.cc:93-109 | the safe characters are the letters, the digits and the listed punctuation |
| `HttpInfo.SearchParam` | cotamer/http.cc:349-359 | finds the first parameter of that name, if there is one |

## Left out

- Consensus liveness: it depends on timing and on the failure detector; only safety is stated.
- Round numbers are unbounded; wrap-around of a 64-bit round is not modelled.
- ConsensusNancy.Observe: the observer's stop timer and 15-minute limit are not modelled; the messages that reach her before she stops are a parameter.
- The kernel interfaces, llhttp, libcurl, JSON servers and command-line programs: foreign calls and plumbing.
- Weak memory orders: every atomic access is a sequentially consistent step. The poll backend has no wake mechanism.
- Reference counts and deletion of events, tasks and descriptor bodies: objects stay. The return value of `trigger()` that depends on them is not modelled beyond whether the event was untriggered.
- A mutex waiter's event triggered from outside the mutex; a waiter is live until it is granted or cancelled.
- `interest{}` and its propagation through quorums.
- EventRuntime.Events.RunEvent: models firing an event that has not triggered; on one that has, whose post is still queued, the loop is `RunCoroutines`, and the post then finds nothing. Coroutines it resumes do nothing before it ends.
- EventRuntime.Events.DrainAll: resumed coroutines do nothing between posts, and there is no quota for a pass; `Drain` is one turn and may alternate with the other operations.
- MutexSafety.WordDecodes: with the latch set, the rest of the word is what it was at latching, and is not related to later grants.
- Posts by `trigger()` are one list per system; which of `asap_` and the migration queue carries them is modelled separately in `Migration`.
- RaceTasks.Tasks.ResolveTask: promises are in an arena in which a task's arguments precede it; awaiter links other than forwarding, resolution events, the state of a forwarded task that nobody awaits yet, errors and destruction are not modelled. `port::receive`, which awaits without `forward`, is not a race leaf here.
- Typed results of `first` and `attempt`; a result is an item of a port or none.
- TimerHeap.Timers.Emplace: sizes and indexes do not overflow 32 bits.
- TimerHeap.Timers.TakeDue: coroutines run by a timer do not add timers during the pass; `PopDue` is one turn of that loop and may alternate with `Emplace`.
- WatchTable.FdTable.Install: a body that replaces another requires the old one to be closed, as the program does, which otherwise reads an empty result; the listener sets of bodies are not modelled.
- Registration with the kernel itself: the table of registered masks is the model of it.
- The length prefix has the byte order of the host; the model takes the least significant byte first.
- Same-driver posts that bypass the migration queue, fd and timer wakeups, and the quota of each pass.
- MessageStream.Stream.Send: the wait for backpressure and the mutex of concurrent senders come before the modelled part; lengths of 2^32 or more are excluded by the program's assertion.
- MessageStream.Stream.Recv: at the end of the stream the program returns an empty string, which the model keeps apart from an empty message.
- The notifiers between `send`, `recv` and the two loops.
- Header lookup, chunked output and copying of HTTP messages.
- The cached flags of `make_info`: parts and parameters are computed anew.
- `examples/netsim.hh` delays and verbosity; delivery takes any time.
