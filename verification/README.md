# Verified model of the COLO background daemon

The daemon watches over two QEMU instances that replicate each other. Two nodes agree through a group
that delivers messages in one order to both; on each node a single thread runs coroutines that react to
a prioritised event queue, talk QMP to QEMU over two channels, and watch a network link. This project
models those parts and proves what they promise.

The parts, from the bottom up:

- `NestedCalls`, `CoroutineStack`, `Coroutine`, `StackDepth`: what a nest of suspendable bodies means, the
  runtime that re-enters them from the top through sixteen saved lines, and the object with the macros as
  methods. Either does what the other does, in lockstep; and the daemon's bodies nest nine deep at most.
- `SeqnoOrder`, `SortedArrivals`, `EventQueueSpec`, `EventQueue`: the comparator with its wrapping and
  truncating arithmetic, sorted sequences, the queue's meaning in order of arrival, and the queue object.
- `WakeUp`, `WakeOrder`, `EventWaiter`: how a queued event wakes the main coroutine, in its own wait and in
  its waits for QMP events.
- `WakeStates`, `AssertRun`: that protocol and the states of the node as one system.
- `MainNode`, `MainInvariants`, `AutoquitLoss`, `MainCoroutine`: one node as a transition system cut at
  the places where its coroutine can be suspended, its whole-run invariants, and the object whose methods
  take the same steps in place.
- `MainStories`, `MainDuties`, `MainMessages`: the node watched from outside over whole runs: in which order the
  stages of each state end, what each report leads to, and what is said to the group.
- `FailoverAgreement`, `FailoverHypotheses`, `LeftoverVictory`, `BothFail`: two nodes, one agreed log, every
  interleaving.
- `CpgSpec`, `CpgDelivery`, `Cpg`: retransmission over a lossy group.
- `Yellow`, `YellowRefinement`, `YellowNotices`, `YellowCoroutine`: the link debouncer, its specification, and what
  its notices mean.
- `Qmp`, `QmpAccounting`, `QmpInvariants`, `QmpRuns`, `QmpYank`, `QmpState`: the two QMP channels under their locks,
  and what is said over them.
- `ChannelIo`, `Callbacks`: the channel loops and the callback lists.
- `Runs`, `ColodTypes`: finite runs of a transition system, and the shared enumerations.

Code that updates fields in place is a class whose methods are proved equal to a step of a transition
system on values; what the daemon promises is proved about runs of that transition system. A run is a
list of moves, each chosen by the environment among those possible: arrivals, timers, resumptions,
replies, errors.

What the failover agreement rests on is explicit. No event that says the peer came first may be lost to
a full queue. No victory of an earlier epoch may be left in a queue. And no MESSAGE_FAILOVER of an earlier
epoch may be left in the log so that a node is still to hear its own, while its peer has heard that already.
`FailoverHypotheses` proves that none can be dropped, the last two as one equivalence over every log, and
`LeftoverVictory` how a victory comes to be left. That somebody wins is not promised, and `BothFail` shows why.

The assert that something is queued when a wait for a QMP event is woken (main_coroutine.c:247) does not hold in
every run. With wake sources firing in the order they were added, `WakeStates` proves that it holds as long as
PRIMARY_WAIT is never entered with a request to migrate still queued, and `AssertRun` gives a run of a node in
which that happens and the assert fails.

A detail that is easy to misread in the code and is modelled as written: the queue drops an event equal to the one
that would be served last, which is not always the one that arrived last (main_coroutine.c:196-200).

Verify with `dafny verify dfyconfig.toml`.

## Model

| member | source | states |
|---|---|---|
| CoroutineStack.RuntimeMeansNestedCalls | coroutine_stack.h:56-85 | For every program, with bodies that yield, call, poll and return, and every schedule of resumes, whatever the runtime does the nested calls do when resumed in the same worlds: same effects, same yielded values, finished at the same time. Outside co_enter the frame is back at the base, every slot beyond the live activations has line 0, the switch always finds its label, only a finished coroutine cannot be entered, and the frame check fails exactly where the calls nest seventeen deep. |
| CoroutineStack.NestedCallsAreRun | coroutine_stack.h:72-85 | Conversely, every run of the nested calls that stays within sixteen activations is a run of the runtime with the same resumes, and the runtime is outside co_enter whenever the calls are suspended or finished. |
| CoroutineStack.NextSimulates | coroutine.h:17-27 | One step of the runtime either is one step of the nested calls, or is bookkeeping (re-entering, passing a yield out) that changes nothing they mean and comes closer to a real step. |
| CoroutineStack.CatchUp | coroutine_stack.h:72-85 | Bookkeeping never goes on forever: the next step of the nested calls is always reached, up to a seventeenth frame. |
| Coroutine.Coroutine.BeginEnter | coroutine_stack.h:56-64 | The first half of co_enter on the object's fields: refused for a finished coroutine or a displaced frame, else the body is called with the yield flag cleared. |
| Coroutine.Coroutine.FinishEnter | coroutine_stack.h:64-69 | The second half: a body that returned without yielding resets its slot and marks the coroutine finished. |
| Coroutine.Coroutine.Dispatch | coroutine.h:17-19 | The switch: line 0 starts the body, a saved yield goes on after it, a saved call is made again, any other line aborts. |
| Coroutine.Coroutine.Execute | coroutine_stack.h:46-51 | One statement of a body, a yield saving its line and value in the coroutine, a poll only its value, a call moving to the next frame unless it would be the seventeenth. |
| Coroutine.Coroutine.AfterCall | coroutine_stack.h:78-84 | After a callee returns: with the yield flag set the caller saves its line and returns too, else the callee's slot is reset and the caller goes on. |
| SeqnoOrder.CompareExact | eventqueue.c:28-39 | Within one class of events the comparator, computed in 64-bit unsigned arithmetic and truncated to a signed int, returns the true distance exactly when that distance fits 32 bits, across any number of wraps. |
| SeqnoOrder.SpanIsExact | eventqueue.c:34-38 | All pairs of arrivals no further apart than a span are ordered as they arrived, interrupting ones first, if and only if the span is below 2^31. |
| SortedArrivals.SortArranges | eventqueue.c:58 | Re-sorting any permutation of arrivals within that span yields the interrupting ones in arrival order followed by the others in arrival order. |
| SortedArrivals.InsertArranges | eventqueue.c:75 | Inserting the newest arrival into a sorted sequence yields the same as sorting all of them. |
| SortedArrivals.ArrangeFront | eventqueue.c:89-91 | The front of the sorted sequence is the earliest interrupting arrival, or the earliest if none interrupts, and the rest is sorted. |
| SortedArrivals.ArrangeBack | eventqueue.c:119-124 | The back of the sorted sequence is the latest arrival that does not interrupt, or the latest if all do. |
| EventQueueSpec.Conservation | eventqueue.c:41-95 | Over any sequence of additions, removals and changes of the interrupting set, what was pending or accepted equals, as multisets, what was served or is pending, and the capacity is never exceeded. |
| EventQueueSpec.PendingInterruptIff | eventqueue.c:131-140 | Looking at the head alone decides whether any pending event interrupts. |
| EventQueueSpec.InterruptingHeadStays | eventqueue.c:28-39 | An interrupting head keeps its place whatever arrives after it. |
| EventQueueSpec.ServedBefore | eventqueue.c:81-95 | A pending interrupting event with no other given event before it is served before that one. |
| EventQueueSpec.OfferKeeps | main_coroutine.c:196-202 | An event offered to the queue is pending afterwards unless the queue was full, nothing pending is disturbed, and an interrupting head stays. |
| EventQueueSpec.OfferAddsIff | main_coroutine.c:196-202 | An offer changes nothing exactly if the queue is full or the event equals the one at the back, which is the latest that does not interrupt or the latest if all do; else it adds the event. |
| EventQueue.EventQueue.constructor | eventqueue.c:146-167 | An empty queue of the given size with the always interrupting events set. |
| EventQueue.EventQueue.SetInterrupting | eventqueue.c:41-59 | The interrupting set becomes the always interrupting events and the given ones; the pending events and their order of arrival are unchanged, and the sequence is sorted anew. |
| EventQueue.EventQueue.Add | eventqueue.c:61-79 | Rejected exactly when the queue is full, and then nothing changes; else the event joins the pending ones as the latest, while live numbers stay in step. |
| EventQueue.EventQueue.Remove | eventqueue.c:81-95 | Nothing exactly if the queue is empty; else `used` drops by one and, while in step, the event served is the earliest interrupting one or else the earliest. |
| EventQueue.EventQueue.Peek | eventqueue.c:97-109 | The event the next removal returns. |
| EventQueue.EventQueue.LastEvent | eventqueue.c:111-125 | The event that would be served last. |
| EventQueue.EventQueue.PendingInterrupt | eventqueue.c:131-140 | True exactly if some pending event interrupts. |
| WakeUp.NoLostWakeUp | main_coroutine.c:169-230 | In every run, whatever the coroutine lets interrupt it, while it waits in colod_event_wait with events pending a wake source is live, although the destroy callback of an older source forgets a newer one. |
| WakeUp.FiringProgresses | main_coroutine.c:214-225 | A wake source that fires then either serves the event that is next or is used up, leaving the queue and the other sources as they were. |
| WakeUp.ServedWithinLive | main_coroutine.c:214-225 | With events pending, fewer sources than are live can fire before one serves an event. |
| WakeUp.WaitLeftForInterrupt | main_coroutine.c:246-257 | A wake source that fires in a wait for a QMP event leaves it waiting exactly if something is pending that does not interrupt, fails the assert exactly if nothing is, and else goes on to an event that interrupts. |
| WakeUp.StrandedIff | main_coroutine.c:241-257 | Throughout a wait for a QMP event, an interrupt is pending with no live wake source exactly if the wait was entered so, one pending and no source left, and no interrupting event has been queued since. |
| WakeUp.GuardedWaitIsWoken | main_coroutine.c:821-829 | A wait entered only with no interrupt pending, which the code checks here and before the last wait of the migration but not in SECONDARY_WAIT and COLO, never leaves one without a live source. |
| WakeUp.SecondaryWaitStrands | main_coroutine.c:660-677 | There is such a run in SECONDARY_WAIT, for every size of the queue from two: of two interrupting events the first is served, and the coroutine waits again with the second, a request to quit, and no live source. |
| WakeUp.AssertFailsIff | main_coroutine.c:246-247 | With only wake sources and the source of the awaited event or its timeout firing, the assert that something is queued can fail in a wait for a QMP event exactly if the wait was entered with nothing queued and a wake source left. Sources left over from earlier commands (qmp.c:228-229, coutil.h:30) also return INTERRUPT and are not counted here. |
| WakeUp.AssertReachable | main_coroutine.c:169-230 | The wake-up protocol alone does not exclude that, with the coroutine free to wait, suspend or be resumed in any order. |
| WakeOrder.OrderedAssertHolds | main_coroutine.c:246-247 | With wake sources firing in the order they were added, as sources of one priority do, the assert holds in every run in which the last event was served by a wake source's dispatch or none was: a wait with nothing queued has no live source then. |
| WakeStates.AssertHolds | main_coroutine.c:246-247 | In every run of the node and its wake sources together, with wake sources firing in order, the assert holds unless PRIMARY_WAIT has been entered with an EVENT_START_MIGRATION queued; and no other assert or abort() of the states is met in any run. |
| AssertRun.AssertFails | main_coroutine.c:825-829 | There is such a run, in order, for every size of the queue from four: a primary that has failed over is asked twice to migrate, with a copy of its own MESSAGE_FAILOVER between; errors read in the dispatches of wake sources leave one live and forgotten; the copy wins the next failover, the second request is served in another source's dispatch, and the wait for the migration is woken with nothing queued. |
| WakeStates.JointRunIsBoth | main_coroutine.c:945-1053 | Every run of the two together is a run of the node and a run of the wake-up protocol, and their queues are one. |
| WakeStates.OldestFires | main_coroutine.c:187-190 | The node refuses no wake-up: wherever the coroutine is suspended, until it ends, the oldest live wake source can fire. |
| WakeStates.ServeResumes | main_coroutine.c:625-911 | Serving an event takes that event off the queue and no other, and leads to a wait for a QMP event in SECONDARY_WAIT and from PRIMARY_WAIT only. |
| WakeStates.OutcomeResumes | main_coroutine.c:552-912 | Any other resumption leaves pending what was, queues what its command reports (EVENT_FAILED without a reply, EVENT_FAILOVER_SYNC after a yank) and nothing else, and comes to such a wait only from where one lay ahead. |
| WakeUp.CommandUsesUp | coutil.c:49-59 | A wake source that fires during a command's i/o is used up; an interrupt is left without a live source exactly if that was the last one. |
| WakeUp.WakeUsedUpElsewhere | coutil.c:49-59 | There is such a run. |
| EventWaiter.EventWaiter.QueueEvent | main_coroutine.c:177-203 | A wake source is armed if none is remembered and the queue is empty or the event interrupts; then the event is offered to the queue object, unless it equals the one served last. |
| EventWaiter.EventWaiter.EventWait | main_coroutine.c:207-230 | The firing source is forgotten if remembered; the coroutine parks if nothing is pending or a source is remembered, else it gets the head. |
| EventWaiter.EventWaiter.EndDispatch | main_coroutine.c:169-173 | A fired wake source goes away, and the destroy callback clears the remembered one, whichever it is. |
| EventWaiter.EventWaiter.SetInterrupting | eventqueue.c:41-59 | Saying which events interrupt is the corresponding move of the wake-up protocol. |
| EventWaiter.EventWaiter.QmpEventWoken | main_coroutine.c:241-257 | A wake source firing in a wait for a QMP event: the failing assert with nothing queued, another wait with no interrupt pending, else the event is served or awaited in colod_event_wait. |
| MainInvariants.RunKeepsInv | main_coroutine.c:945-1053 | In every run each state is suspended only at its own places, the interrupting set fits the state, the role flags have the values the state fixes, failure implies the failed states and a sent MESSAGE_FAILED, and outside them a gone QEMU has its EVENT_FAILED pending unless a full queue lost one. |
| MainInvariants.NeverAborts | main_coroutine.c:143-163 | No run of a fresh node reaches an abort() or a failed assert of the state functions, that of main_coroutine.c:247 apart, which can fail (AssertRun.AssertFails); where the migration waits for its interrupt, the head of the queue is one that handle_event can handle, and the event it cancels for is always a request to fail over, as the assert at 906 says. |
| MainInvariants.InterruptStaysHead | main_coroutine.c:888-895 | While the migration waits to serve an interrupt, no callback changes which event that is. |
| MainInvariants.PromotionPath | main_coroutine.c:975-990 | `primary` never turns false, and turns true only on entering PRIMARY_WAIT after SECONDARY_COLO_RUNNING, FAILOVER_SYNC and FAILOVER, in this order. |
| MainInvariants.FailureIsFinal | main_coroutine.c:994-1047 | A failed node stays failed in every continuation, within FAILED, AUTOQUIT and QUIT, and MESSAGE_FAILED has been sent. |
| MainInvariants.AutoquitNotLost | main_coroutine.c:1012-1061 | Once QEMU is gone and an EVENT_AUTOQUIT has been served, the main loop has been told to quit or an EVENT_FAILED is pending, provided no EVENT_FAILED was lost to a full queue. |
| AutoquitLoss.RejectionLosesAutoquit | main_coroutine.c:1055-1061 | The proviso is needed: for every size of the queue there is a run in which a full queue loses the EVENT_FAILED, the request is served, and the daemon is not told to quit and has nothing pending that would tell it. |
| MainStories.MigrationInOrder | main_coroutine.c:802-867 | In every run: a migration comes to COLO exactly when capabilities, start commands, pre-switchover, switchover commands, migrate-continue and colo have ended in this order since it began, each with success, every command of the arrays answered well, and no interrupt pending after any command. |
| MainStories.MigrationFails | main_coroutine.c:869-912 | In every run: an error reply cancels the migration for a failover, no reply or a timeout fails the node, an interrupt is served next; a request to fail over cancels it, any other interrupt ends in a failed state; and only a cancellation that succeeds comes to FAILOVER_SYNC. |
| MainStories.PromotionInOrder | main_coroutine.c:563-591 | In every run: PRIMARY_WAIT is entered from FAILOVER exactly when the yank has succeeded and then every command of the array was answered, with no interrupt pending before the last of them; and FAILED exactly after a failed yank, a command without a reply, or an interrupt. |
| MainStories.PlanMeans | main_coroutine.c:802-867 | What a story that has followed a plan looks like: the stages that have succeeded are those of the plan so far, in order, and nothing in it has failed. |
| MainStories.SettlesInOrder | main_coroutine.c:704-737 | In every run: a new primary looks at the links, and fails if it alone is yellow, exactly after two RESUME events and its delay; an interrupt before takes it to its events. |
| MainStories.SecondaryInOrder | main_coroutine.c:617-697 | In every run: a secondary waits for its peer exactly if its first command succeeds, and joins the replication exactly when QEMU is resumed. |
| MainStories.FailedStopsFirst | main_coroutine.c:1006-1011 | In every run: a failed node has run the command that stops QEMU before it serves anything. |
| MainStories.TransitioningIff | main_coroutine.c:577 | In every run `transitioning` holds exactly from the successful yank of a failover, and from the end of a migration's start commands with no interrupt pending, until the state is left. |
| MainStories.WhatInterrupts | main_coroutine.c:651-658 | In every run: a waiting secondary is interrupted by anything pending but a request to migrate; migration, replication and the wait for the outcome by a request to fail over or what always interrupts; a failover only by what always does. |
| MainDuties.EventLeads | main_coroutine.c:602-1046 | Event by event, for all states at once: where a node goes when it serves it, and in which states it goes on waiting. |
| MainDuties.FailureIsActedOn | main_coroutine.c:1114-1129 | In every run: once a replicating node has been told that its peer has failed or left, or that the replication or the migration has failed, EVENT_FAILOVER_SYNC is pending, or the migration is being cancelled for it, until the state is left, unless a full queue lost it; and the next event served leads to FAILOVER_SYNC, to that cancellation, or to a failed state. |
| MainDuties.ReportsAreActedOn | main_coroutine.c:1055-1123 | In every run: QEMU's failure leads to a failed state, a teardown to QUIT, a request to quit automatically is served, one to migrate is served in PRIMARY_WAIT, and the peer's MESSAGE_FAILOVER is reported as its failover, or the event for it is still pending, unless a full queue lost it. |
| MainDuties.FlagsSayTheLast | main_coroutine.c:1130-1159 | In every run: `yellow`, `peer_yellow`, `peer_failed` and `qemu_quit` say what was reported last, the link is watched until the disk fails, and the main loop is told to quit only when QEMU has hung up and a request to quit automatically has been served. |
| MainDuties.YellowFails | main_coroutine.c:732-752 | In every run: a replicating primary enters FAILED exactly when it serves EVENT_FAILED or EVENT_PEER_FAILOVER, or looks at the links, at the end of its delay or on a yellow event, while its own was last reported bad and its peer's was not; and news of the links is pending until it has looked. |
| MainDuties.HelloIsAnswered | main_coroutine.c:1130-1133 | In every run: whoever says hello is told of a bad link. |
| MainMessages.FlaggedIffAwaited | cpg.c:92-145 | In every run: a message is flagged in the node exactly while its group channel awaits it, MESSAGE_HELLO being multicast at the start, MESSAGE_FAILOVER on entering FAILOVER_SYNC, MESSAGE_FAILED on entering FAILED or AUTOQUIT, and the messages on the link by the debouncer, the disk's failure and in answer to a hello. |
| MainCoroutine.MainCoroutine.Resume | main_coroutine.c:945-1053 | From one suspension to the next the object takes exactly the step of the transition system, keeps the invariant, and does not abort. |
| MainCoroutine.MainCoroutine.Enter | main_coroutine.c:962-1034 | The effects of entering a state up to its first suspension: flags, interrupting set, messages sent. |
| MainCoroutine.MainCoroutine.QueueEvent | main_coroutine.c:196-202 | The event joins the queue unless it equals the one served last; a full queue loses it. |
| MainCoroutine.MainCoroutine.HandleAlwaysInterrupting | main_coroutine.c:143-151 | Each always interrupting event leads to its failed state, any other to abort(). |
| MainCoroutine.MainCoroutine.HandleEventFailover | main_coroutine.c:157-163 | A request to fail over leads to FAILOVER_SYNC, any other event to abort(). |
| MainCoroutine.MainCoroutine.StartMigration | main_coroutine.c:787-912 | A command or wait of the migration ends: on to the next, to handle_event if an interrupt is pending, by kind of error to handle_event, to the cancellation for a request to fail over, or to FAILED; the cancellation goes on by the event it is for. |
| MainCoroutine.MainCoroutine.Failover | main_coroutine.c:552-591 | A failed yank leads to FAILED, a finished command array to PRIMARY_WAIT, an interrupted or unanswered one to FAILED. |
| MainCoroutine.MainCoroutine.ColoRunningResumed | main_coroutine.c:704-737 | The primary's two waits for RESUME and its delay, after which it fails if it alone is yellow. |
| MainCoroutine.MainCoroutine.ColoRunningHandle | main_coroutine.c:739-753 | A request to fail over, an always interrupting event, or a yellow event that finds the primary alone yellow end the state; other events are dropped. |
| MainCoroutine.MainCoroutine.FailoverSyncHandle | main_coroutine.c:602-610 | Victory leads to FAILOVER, an always interrupting event to its failed state, anything else is dropped. |
| MainCoroutine.MainCoroutine.FailedHandle | main_coroutine.c:1012-1028 | What the failed state does with each event, an EVENT_AUTOQUIT ending the loop only if QEMU is gone. |
| MainCoroutine.MainCoroutine.AutoquitHandle | main_coroutine.c:1035-1046 | What AUTOQUIT does with each event, an EVENT_FAILED ending the loop only if QEMU is gone. |
| MainCoroutine.MainCoroutine.Hup | main_coroutine.c:1055-1061 | QEMU's hang-up is remembered, then queued as EVENT_FAILED; the invariant holds. |
| MainCoroutine.MainCoroutine.CpgMessage | main_coroutine.c:1118-1144 | What each delivered message changes and queues, by sender; the invariant holds. |
| MainCoroutine.MainCoroutine.CpgPeerLeft | main_coroutine.c:1114-1117 | A peer that left counts as failed, and a failover is requested. |
| MainCoroutine.MainCoroutine.YellowEvent | main_coroutine.c:1147-1159 | The debounced link, while it is watched, sets the node's yellow flag and queues the event. |
| MainCoroutine.MainCoroutine.Announce | yellow_coroutine.c:46-60 | The debouncer's announcements and what it takes back are sent; nothing else changes. |
| MainCoroutine.MainCoroutine.DiskFailed | main_coroutine.c:1080-1086 | A local disk error makes the node yellow, tells the peer, shuts the debouncer down, which takes back what it has announced, and queues EVENT_YELLOW. |
| MainCoroutine.MainCoroutine.ReplicationFailed | main_coroutine.c:1074-1077 | A broken replication requests a failover. |
| MainCoroutine.MainCoroutine.MigrationReportedFailed | main_coroutine.c:1088-1094 | A failed migration requests a failover only while the node migrates, and else changes nothing. |
| MainCoroutine.MainCoroutine.RequestMigration | main_coroutine.c:515-522 | Accepted exactly in PRIMARY_WAIT, and else nothing changes. |
| MainCoroutine.MainCoroutine.RequestAutoquit | main_coroutine.c:524-526 | EVENT_AUTOQUIT is queued; the invariant holds. |
| MainCoroutine.MainCoroutine.SetPeer | main_coroutine.c:90-95 | A new peer counts as neither failed nor yellow. |
| FailoverAgreement.WinnerIsFirst | main_coroutine.c:593-615 | Over every interleaving of deliveries, duplicates, local events and delays, and whatever is in the log at the outset, a member with no victory left over that enters FAILOVER sent the first MESSAGE_FAILOVER it was to hear and has had it delivered, if its defeat was not lost to a full queue. |
| FailoverAgreement.AtMostOneWinner | main_coroutine.c:1118-1123 | In no such run do both members enter FAILOVER, if they were to hear the same one first or none. |
| FailoverHypotheses.AgreementIff | main_coroutine.c:602-606 | At the start of an epoch, for every log and whatever has been delivered of it, agreement fails in some run that loses no defeat if and only if both members are open (each has a victory left over, or no message of its peer's to hear before its own) and a victory is left over or the messages they are to hear first differ. |
| FailoverHypotheses.StaleVictoryBreaksAgreement | main_coroutine.c:602-606 | From every start with a victory left over in one member and the other open there is a run, losing no event, in which both members win. |
| FailoverHypotheses.LeftoverMessageBreaksAgreement | main_coroutine.c:1118-1123 | So there is with a member's own MESSAGE_FAILOVER of an earlier epoch undelivered to it, which its peer has heard already. |
| LeftoverVictory.LeftoverVictoryArises | main_coroutine.c:602-606 | For every size of the queue from two, two started nodes can come to an epoch with a victory left over and both members open: the primary's peer dies, its MESSAGE_FAILOVER is multicast twice, and the second copy is delivered behind the next request to migrate, when the peer has been started anew. |
| FailoverHypotheses.LostDefeatBreaksAgreement | eventqueue.c:66-68 | From every start with an empty log and no victory left over in the first member there is a run in which a full queue loses a defeat and both members win. |
| BothFail.BothCanFail | main_coroutine.c:602-609 | From every start with an empty log and no victory left over, with room for two events in each queue, there is a run in which both members fail and neither wins: the peer's message overtakes the queued victory. |
| CpgSpec.RunKeepsInv | cpg.c:49-145 | In every run of a node that has joined, a message is flagged exactly if it has been sent and its own delivery has not been seen since, and a flag implies an armed timer. |
| CpgSpec.NextKeepsInv | cpg.c:49-145 | Every single operation keeps that. |
| CpgSpec.RetransmitRepeats | cpg.c:49-60 | Retransmitting multicasts exactly the flagged messages, in the order of their numbers, and changes nothing else. |
| CpgDelivery.RetransmissionEnds | cpg.c:62-71 | With L multicasts still to be lost, deliveries within D timer periods and nothing new sent, the timer fires at most L + D + 2 times, and when it has stopped nothing is awaited. |
| CpgDelivery.NeverStuck | cpg.c:62-71 | Until the timer has stopped it can fire, or a copy can arrive. |
| CpgSpec.DepartureRepeats | cpg.c:111-114 | When a member has left, each flagged message is multicast exactly once more and nothing else is done; when none has, nothing is. |
| CpgSpec.TimerRepeats | cpg.c:62-71 | Each time the timer fires the flagged messages are multicast exactly once more, and it goes on exactly if there is one. |
| Cpg.Cpg.Send | cpg.c:132-145 | The flag is set, the timer armed if it was not, the message multicast. |
| Cpg.Cpg.Retransmit | cpg.c:49-60 | The loop over the flags sends what the specification says, and reports whether anything was flagged. |
| Cpg.Cpg.RetransmitTimer | cpg.c:62-71 | The timer goes on exactly if something was flagged, and then it has been repeated. |
| Cpg.Cpg.Deliver | cpg.c:92-94 | Only the node's own message clears its flag. |
| Cpg.Cpg.ConfChg | cpg.c:111-114 | A member that left makes the node repeat what is flagged. |
| Yellow.RunKeepsInv | yellow_coroutine.c:64-147 | In every run the asserts hold; a timer is armed only in the two windows, one at a time, and it is the remembered one; the last message sent is that of the committed level, except that the second window announces the target; notifications alternate, starting with YELLOW. |
| Yellow.ShutdownIsFinal | yellow_coroutine.c:217-225 | From every reachable park a shutdown ends the coroutine in one resume, takes an announcement back, leaves no timer, and nothing is sent or notified in any continuation. |
| YellowRefinement.RunRefines | yellow_coroutine.c:64-138 | In every run, however late timers fire, the notifications are those of a specification over what the interface reported, up or down: the link counts as the one until the other has held for both windows. |
| YellowRefinement.Debounces | yellow_coroutine.c:64-138 | With punctual timers, for every sequence of reports and delays the notifications and their times equal those of the specification that changes the moment both windows have passed. |
| YellowNotices.NoticesMean | yellow_coroutine.c:170-183 | With punctual timers, from the reports alone: at every EVENT_YELLOW the interface had been reported down, and at every EVENT_UNYELLOW up, without a break since exactly the two windows before. |
| YellowNotices.LateNoticesMean | yellow_coroutine.c:64-138 | In every run, however late the timers: since at least the two windows before. |
| YellowNotices.HeldIsNoticed | yellow_coroutine.c:82-125 | With punctual timers, a link reported down, or up, without a break for longer than both windows has last been said to be yellow, or not; a link of which nothing was said counts as up. |
| YellowRefinement.HeldMeans | yellow_coroutine.c:82-107 | The specification's condition: a level has held since the report that began the latest unbroken series of it, so repetitions restart nothing; it has not held exactly if there is no report or the last one is another. |
| YellowRefinement.PlayIsRun | yellow_coroutine.c:82-107 | Punctual timers are one of the behaviours of the first result. |
| YellowCoroutine.YellowCoroutine.Resume | yellow_coroutine.c:64-138 | A resume with an event or by a timer takes the object from park to park as the transition system does, with its messages, timers and notifications. |
| YellowCoroutine.YellowCoroutine.TimerFired | yellow_coroutine.c:140-147 | A timer's callback does not end the coroutine, and the timer is gone. |
| YellowCoroutine.YellowCoroutine.Shutdown | yellow_coroutine.c:217-225 | The coroutine has ended and `quit` is set, with no timer armed. |
| QmpRuns.RepliesMatch | qmp.c:244-284 | In every run with no recorded error, each result is the reply to its own command, also after a timeout, a yank and a second read and in the handshake; a channel whose lock is free has no unread line but events and is owed none. |
| QmpRuns.CommandsAreOwn | qmp.c:244-284 | No two coroutines ever have a command in common. |
| QmpRuns.EventsConserved | qmp.c:222-231 | In every run with no recorded error, the events of the main channel notified so far, followed by those unread, are all that were emitted, once each and in order, whoever read them. |
| QmpRuns.AssertsHold | qmp.c:603-637 | In every run, with errors or without, no assert of the lock fails, and a line that is no event is never the first thing to go wrong in an event reader. |
| QmpRuns.BooksBalance | coutil.h:22-45 | In every run, with errors or without, a lock counts exactly what its holder has taken, is free exactly if nobody has taken it, and `inflight` is the number of coroutines and calls under way. |
| QmpYank.YanksAreDone | qmp.c:352-401 | In every run, with errors or without: each yank that has set the yank flag has written query-yank and after it, with what that listed, yank on the yank channel, and has read a good reply to each; and a call that reads on after a late reply has had such a yank of its own. |
| QmpYank.LateReplyYanks | qmp.c:184-205 | The first time the reply to a call is late a yank for it begins, and nothing else happens; the second time the call fails and the error is recorded. |
| QmpYank.CallsAreAnswered | qmp.c:244-284 | A call ends with one more reply read, its own, or with a recorded error; so does one whose yank has failed. |
| QmpYank.HandshakesNegotiate | qmp.c:434-477 | In every run with no recorded error, a handshake that has ended has written qmp_capabilities on its channel and read a good reply. |
| QmpRuns.CallsEnd | qmp.c:184-205 | Each step of a call or handshake brings it closer to its end or reads one of the events there are: the recursion through a yank happens once. |
| StackDepth.RankBoundsDepth | coroutine_stack.h:72-76 | A program whose calls lead only to bodies of lower rank, its first below sixteen, never fails the frame check in any run, and its frame stays within the rank of the first. |
| StackDepth.DaemonNeverOverflows | coroutine_stack.h:72-76 | Any program whose bodies call each other as those of the daemon's coroutines do (main, clients, watchdog, handshake, event reader, debouncer, raise-timeout) never fails the frame check, and uses frames up to eight. |
| StackDepth.CallsDescend | qmp.c:184-205 | The call graph has no cycle: the mutual recursion of reading, yanking and executing ends because `yank` is false on the way down. |
| StackDepth.DeepestNest | main_coroutine.c:578-579 | The bound is reached: there is a program whose bodies call each other as the daemon's do, and a run of the runtime that comes to frame eight, with the nine bodies of a command of the failover's array whose reply is late. |
| QmpRuns.ActivityNests | qmp.c:184-205 | The bodies listed for each thing a coroutine does with the channels are a chain of calls of that graph, within its ranks. |
| QmpState.ColodQmpState.LockCo | coutil.h:22-36 | Taking a lock that is free or one's own: the count rises and the coroutine holds it; the asserts are checked. |
| QmpState.ColodQmpState.UnlockCo | coutil.h:38-45 | The count drops, and at zero the lock is free; the assert is checked. |
| QmpState.ColodQmpState.ExecuteCo | qmp.c:244-284 | One step of a command on either channel, with its lock, its error and its place in `inflight`. |
| QmpState.ColodQmpState.Executing | qmp.c:184-209 | A command on the main channel: the first timeout yanks, any other failure ends it with a recorded error. |
| QmpState.ColodQmpState.Yanking | qmp.c:350-402 | The two commands of a yank; a failure fails the command it was for, a success lets that one read again. |
| QmpState.ColodQmpState.Greeting | qmp.c:434-452 | The handshake reads the greeting under the lock it was created with. |
| QmpState.ColodQmpState.Negotiating | qmp.c:454-477 | The handshake's command, after which its lock is given back on every path. |
| QmpState.ColodQmpState.EventReader | qmp.c:595-642 | The event reader waits for a free lock, reads one line, notifies an event and records an error for anything else. |
| QmpState.ColodQmpState.Run | qmp.c:244-642 | One step of any coroutine is the step of the transition system; if the books balanced before it, it fails no assert and they still balance. |
| ChannelIo.WriteAll | coutil.c:92-194 | For every schedule of partial writes, refusals, wake-ups and timeouts the channel has been given a prefix of the buffer, once and in order, and all of it on success; the call fails only on a turn that breaks the channel or times out; and no timer or watch is left armed when it returns. |
| ChannelIo.Offer | coutil.c:113-147 | The writing loop: how much each turn takes, and when the loop stops. |
| ChannelIo.Flush | coutil.c:149-178 | The flushing loop: it goes on exactly while the channel refuses. |
| ChannelIo.ReadLine | coutil.c:18-83 | A line is returned from the first turn that delivers one, after turns that all had to wait; no timer or watch is left armed on return. |
| Callbacks.CallbackHead.Find | util.c:202-212 | The first entry with that function and argument, or none exactly if there is none. |
| Callbacks.CallbackHead.Add | util.c:214-225 | The entry comes first, and the list stays free of duplicates. |
| Callbacks.CallbackHead.Del | util.c:227-236 | That entry is gone, the others keep their order. |
| Callbacks.CallbackHead.Clear | util.c:238-244 | Nothing is left. |
| Callbacks.CallbackHead.Notify | qmp.c:109-115 | Every entry there at the start is called once, in order, and exactly those that take themselves out are gone. |

## Left out

- That somebody wins a failover, and that a parked coroutine is ever resumed: no liveness is claimed beyond the bound on retransmission. Partitions and fencing, which decide which node survives outside one membership view.
- WakeUp.AssertFailsIff: during a wait for a QMP event only wake sources and the source of the awaited event or its timeout fire here; sources left over from earlier commands (qmp.c:228-229, coutil.h:30) are not modelled.
- WakeStates.AssertHolds: nor do such sources fire in a wait here. A coroutine that is resumed in a command may find its reply whichever source resumed it.
- MainInvariants.NeverAborts: in `MainNode` a wait for a QMP event is interrupted only by a pending interrupt; the assert at main_coroutine.c:247 is the subject of WakeStates.AssertHolds and AssertRun.AssertFails.
- FailoverAgreement.WinnerIsFirst: what the debouncer announces is any sequence of its two messages while it watches the link; when it announces what is the subject of Yellow.RunKeepsInv.
- MainCoroutine.MainCoroutine.Resume: QMP outcomes are chosen freely, so the contents of command arrays, QEMU's status strings, the health check and the timeouts set on the QMP object are not modelled; an array's first check for interrupts may find one also while a later command is under way.
- MainInvariants.RunKeepsInv: the peer's name, the raise-timeout coroutine and the watchdog are not part of the node.
- CoroutineStack.RuntimeMeansNestedCalls: bodies keep what outlives a yield in their frame or in the world, and a body that sets the yield flag without saving a line (main_coroutine.c:207-230) does not suspend or call in any other way; a wrapper that calls another body in its own frame (qmp.c:286-309) counts as part of that body, and what it does before the call is not repeated on a resume as it is in the code. The size of a frame is not modelled.
- EventQueue.EventQueue.Add: sequence numbers are kept unwrapped, with each comparison made on their 64-bit values; GLib's sequence is a sorted sequence whose insertion puts an element before the first one that compares greater.
- CpgDelivery.RetransmissionEnds: assumes that an accepted multicast comes back within a number of timer periods; the membership callbacks beyond a departure are left out.
- YellowRefinement.Debounces: a report at the very instant a timer is due comes after the timer here; either order is covered by YellowRefinement.RunRefines.
- Qmp: JSON is reduced to greetings, replies with their outcome, and numbered events; waiting for a particular event (qmp.c:519-569), the choice of instances to yank, and the hang-up source are left out. The write of a command takes effect when it ends.
- QmpRuns.EventsConserved: nothing is said after a recorded error, when a line can have been consumed by a failed parse.
- QmpState.ColodQmpState.Run: the coroutines are scheduled one step at a time by the environment; a coroutine waiting for a lock is a step that is not possible yet.
- ChannelIo.WriteAll: bytes handed to the channel count as accepted, whatever the kernel does with them later.
- Callbacks.CallbackHead.Notify: the list is a sequence, not linked nodes, and callbacks that remove other entries than themselves are not modelled.
- Sockets, the accept loop, clients' command parsing, option parsing, daemonising, netlink, logging, the resource agent and memory management.
