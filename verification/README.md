# mcon: the session and I/O protocol

mcon multiplexes up to 2^20 - 1 client sessions over two event sources. epoll reports readiness;
io_uring executes accept, read, write, drain and close. This project models the protocol between the
consumer, mcon and the kernel, and proves what every run of it keeps.

A completion carries an operation and a session index, and no generation. An `epoll` event carries
8 bits of generation. Nothing else stops a late answer from reaching the wrong client. That it does not,
that no wakeup is lost, and that the pushes and pops that "cannot fail" do not fail are properties of all
six source files together. They are proved for the system as a whole.

## How it is built

| file | contents |
|---|---|
| `Types.dfy` | configuration, operations, completions, sessions, events |
| `Pipeline.dfy` | the five FIFO groups of the io_queue seen as one list |
| `World.dfy` | the system as one value; every step of it as a function; runs |
| `Invariant.dfy` | what holds in every reachable state |
| `Ledger.dfy`, `Calls.dfy`, `Readiness.dfy`, `Handler.dfy`, `Accepts.dfy`, `KernelSteps.dfy`, `Runs.dfy` | every step, and so every run, keeps the invariant |
| `Theorems.dfy`, `Behaviour.dfy`, `Draining.dfy`, `Submission.dfy`, `Aim.dfy`, `Admission.dfy`, `Queries.dfy` | what that means for a consumer: in every state, over runs, for what is staged, after a shutdown, and for a slot's descriptor in other hands |
| `Answers.dfy`, `Ordering.dfy`, `Cycle.dfy` | what each call answers and leaves behind, in which order operations leave the queue, and what starts and ends the accept cycle |
| `Witnesses.dfy` | concrete runs in which a documented promise is not kept |
| `Tokens.dfy` | epoll tokens and instance ids |
| `Containers.dfy`, `Mcon.dfy`, `HandlerRuns.dfy` | the imperative code: `struct mcon` as a class |

**The system** (`World.World`) holds the fields of `struct mcon`, the SQ, the kernel's pending and executed
operations, the CQ, the eventfd, the listen backlog, the descriptor table with the connection behind each
descriptor, and the epoll interest list. A step is a call of the consumer, one interruptible piece of the
completion handler, or a move of the environment: a client arrives or gives up, the kernel executes an
operation in any order, posts a completion, signals the eventfd (posting and signalling are separate),
delivers an edge, or somebody else in the process opens or closes a descriptor, including a number that
mcon has just closed. What the environment may choose is an argument of the step, so a statement about all
runs covers every choice, also every error a system call may return.

**The code** (`MconClass.Mcon`) follows the C functions statement by statement, with the same loops, branches
and order of updates. Each method is proved to perform exactly the step (or, for the completion handler, a
run of steps with environment moves between any two) that the theorems speak about, so the theorems apply
to it.

`epoch` and `conn` in sessions and operations, `addFailures`, `registered` and `log` are history: they
record what happened, and no step of mcon depends on them.

## Assumptions

- `ctools/stack.h` and `ctools/kqueue.h` are not part of the repository. The stack is taken to be a bounded
  LIFO, the queue to be k FIFO groups that share one capacity.
- Readiness of the listening socket is handed to mcon only after it was registered, that is after a successful
  start. That it is handed over only as often as epoll reported it is a hypothesis of the statements that need it
  (`HonestRun`); every run given as an example below is of that kind.
- One thread calls the library, an instance is started once, and only mcon edits the interest list for
  descriptors mcon owns. A detached descriptor belongs to the consumer.
- A connection has one descriptor while mcon or the kernel uses it. A consumer that duplicates one it got from
  `mcon_session_get_socket` keeps the connection, and its epoll registration, alive past the close; that is not
  modelled.
- The kernel answers truthfully: a successful accept takes a connection from the backlog and opens a free
  descriptor number; EAGAIN means the backlog was empty; a close frees the number; EPOLL_CTL_DEL answers
  ENOENT only for a descriptor that is not registered. The ring has at least as many SQ entries as asked
  for, and the CQ twice as many.
- An accept SQE prepared with descriptor -1 never succeeds.
- Readiness bits are a record of the four subscribed bits and one for all others. The session state bits are
  booleans. `generation`, `sqe_in_flight` and `accepts_live` have the widths of the source.
- The tests for room in `_process_*` are the guard of the loop that calls them, and are not repeated.

## What turned out not to hold

- **sqe_in_flight after a failed EPOLL_CTL_ADD.** The completion is consumed
  (`src/mcon/event_processing_io_uring.c:32`), and the loop breaks before the counter is decremented (line 246).
  The counter is therefore the number of operations in flight *plus one for every client that could not be
  registered*, for ever (`InFlightIsSubmittedPlusLost`, `InFlightIsExactUnlessClientsAreLost`). Where every
  submit takes all it is offered, after `io_uring_queue_size` such failures no submit moves anything any more
  (`LostClientsWedgeTheInstance`; `InstanceCanWedge` is a run that gets there), and with work in the queue and an
  epoll descriptor that is exactly when (`WedgedExactly`). `CounterCanBeWrong` is a run with one failure.
- **Staged operations after a failed submit.** `mcon_submit` calls `io_uring_submit` only if the same call has
  moved something from the queue (`src/mcon/mcon.c:236-237`). A submit that adds nothing leaves what is staged
  where it is, although the kernel would take it (`StagedStayExactly`). Operations staged while nothing is in flight
  stay there for good if and only if the SQ is full, or the counter stands at the ring's size, or nothing can be
  added to the queue any more: every active session is closing or both reads and writes, and no accept will come
  (`StagedAreLostExactly`). The last case needs one failed `io_uring_submit` in the default configuration:
  the 8 accepts staged by the first submit are as many as may be live, so no later submit adds one, and the
  server never accepts anybody (`ServerCanStarve`). `SubmissionCanBeLost` is the same with a full SQ. With work in
  the queue and the counter other than the ring's size, whatever is in flight, an instance never submits again if and
  only if the SQ is full (`StuckExactly`). Where submit takes all it is offered, no accept is stuck
  (`NoLostAcceptWithFullSubmission`).
- **The descriptor of a closing session.** While a session is closing the kernel may already have closed its
  descriptor number and reused it. `mcon_process_session_event` calls getsockopt on it all the same
  (`src/mcon/event_processing_session.c:68`), and `mcon_session_get_socket` hands it out
  (`src/mcon/session.c:128-132`). Either reaches the right client if and only if the close has not been executed
  (`ErrorQueryReachesItsClient`, `SocketReachesItsClient`). The number stays good until the next call if and
  only if no close has been submitted (`SafeUntilNextCallExactly`), which, once everything is submitted, is to
  say that the session is not closing (`SafeUnlessClosing`). `ErrorQueryCanReachAStranger` and
  `SocketCanBeAStrangers` are runs.
- **"The shutdown is complete when all connections are closed"** (`include/mcon/mcon.h:25-27`). A shutdown
  completes exactly in the step that ends the last active session (`ShutdownCompletesExactly`). One that
  finds no session active stays open (`IdleShutdownStaysOpen`).
- **"Without establishing new ones"** (`include/mcon/mcon.h:25-26`). `mcon_submit` does not look at
  `is_shutting_down`, so a client can be taken on after a successful shutdown (`ClientsCanComeAfterShutdown`).
  If at the shutdown no accept is live, none is requested and no fetched edge is unprocessed, no other client
  is taken on; nor if the server has a single session, which is taken, and no accept is live. Unless something
  else stands in the way it is exactly then (`ShutdownTakesNobodyExactly`). What may stand in the way is a call of
  the completion handler under way, operations stuck in the SQ, no room in ring or queue, an EAGAIN that waits to
  be processed, or that the closes which wait to be processed leave no session active. A busy server, also a full
  one, is covered: what it has in flight comes home first. With nothing outstanding and fewer clients lost than
  the ring has entries nothing stands in the way (`IdleShutdownTakesNobodyExactly`).
- `mcon_session_is_active` returns -1 as a `bool`, that is true, for an index out of range
  (`src/mcon/session.c:135-138`). `include/mcon/mcon.h:38` promises 0 from `mcon_submit`, which returns the
  number of operations submitted. The model follows the code.

## Model

| member | source | states |
|---|---|---|
| `Theorems.LedgerIsExact` | src/mcon/session.c:36-97 | in every reachable state READING, WRITING and CLOSING of each slot equal the number of its outstanding read-or-drain, write and close operations, counted by user data over queue, SQ, kernel and CQ; CLOSING excludes the other two; a free slot has none |
| `Theorems.AcceptedIsReportedOrOutstanding` | src/mcon/event_processing_io_uring.c:94-196 | exactly-once completion: over any run, operations accepted per slot and kind equal completions reported plus those still on their way |
| `Theorems.CompletionsStayInTheirIncarnation` | src/mcon/event_processing_io_uring.c:94-196 | every read, write, drain or close completion event ever reported named an active slot, in the epoch and on the connection for which the operation was accepted |
| `Theorems.OutstandingIsCurrent` | src/mcon/io_uring_entry.h:18-21 | although the entry has no generation, every outstanding operation belongs to the present incarnation of an active slot |
| `Theorems.OperationsReachTheirConnection` | src/mcon/session.c:83-97 | descriptor numbers are reused freely, yet an operation's number leads to the connection it was accepted for until it is executed |
| `Theorems.StaleDescriptorIsRefused` | src/mcon/session.c:11-22 | a slot whose number may lead elsewhere is CLOSING with its close executed, and read, write, drain, close and detach on it answer EBUSY and change nothing |
| `Theorems.FilterDiscardsExactly` | src/mcon/event_processing_session.c:31-33 | a well-formed event of any registration ever made is discarded without a trace, unless its unbounded age is a multiple of 256: then it is answered with exactly the events its bits call for, in order, or with an error if the query fails |
| `Theorems.PassedEventsAreForTheirConnection` | src/mcon/event_processing_session.c:31-33 | an event younger than 256 incarnations that has any effect on the state or the answer concerns an active session on the very connection that was registered |
| `Theorems.TokenLeadsToItsSlot` | src/mcon/event_processing_io_uring.c:54-66 | the token attached at registration is owned by the instance and decodes to the slot and generation of that registration |
| `Theorems.NoLostAccept` | src/mcon/event_processing.c:14-15 | while listening, a non-empty backlog implies an edge ready or held, a request, an accept not yet executed (queued, staged or with the kernel), or an accept completion that is not EAGAIN |
| `Theorems.RequestIsServed` | src/mcon/mcon.c:221-229 | a request survives a submit exactly if the accepts are at their maximum, all free sessions are spoken for, or the queue is full; otherwise the submit has put an accept into the queue |
| `Theorems.NoLostCompletion` | src/mcon/event_processing_io_uring.c:203-263 | outside the handler a non-empty CQ implies a positive eventfd or a signal still due, with the kernel at work at every point of the handler |
| `Theorems.FreeStackPartition` | src/mcon/mcon.c:58-62 | the free stack is duplicate-free and holds exactly the indices whose descriptor is -1 |
| `Theorems.ActiveCountIsExact` | src/mcon/mcon.c:263-265 | the count computed from the stack's size is the number of active sessions |
| `Theorems.AcceptsAreReserved` | src/mcon/io_uring_actions.c:7-12 | accepts_live is the number of outstanding accepts, at most the free sessions and the configured maximum, and never wraps |
| `Theorems.BacklogBound` | src/mcon/session.c:36-97 | outstanding operations are at most two per active session plus the accepts, and at most 2 * session_count |
| `Theorems.SessionOperationsAreNeverRefused` | src/mcon/session.c:36-97 | with io_queue_size >= 2 * session_count no read, write, drain or close is refused for lack of room |
| `Theorems.AcceptsAreNeverRefused` | src/mcon/io_uring_actions.c:9-27 | nor is an accept: the number a submit adds is limited by sessions and the maximum alone |
| `Theorems.InterestListAgrees` | src/mcon/event_processing_io_uring.c:53-78 | every active session that is not closing is registered with epoll under its own index and epoch |
| `Theorems.FailedDetachChangesNothing` | src/mcon/session.c:99-126 | the ENOENT exit and the push failure are unreachable; a detach succeeds if and only if the slot is idle and EPOLL_CTL_DEL succeeds; one that fails restores the state exactly |
| `Theorems.InFlightIsSubmittedPlusLost` | src/mcon/event_processing_io_uring.c:240-249 | sqe_in_flight equals, modulo 2^16, operations submitted and not consumed plus clients that could not be registered, for any answer of submit |
| `Theorems.InFlightIsExactUnlessClientsAreLost` | src/mcon/event_processing_io_uring.c:70-77 | the counter is exact if and only if the number of failed registrations is a multiple of 2^16, in particular when there was none |
| `Behaviour.SubmitLoad` | src/mcon/mcon.c:231-244 | with the counter exact and the SQ empty, the limit does not underflow, and a full submission adds exactly what was moved |
| `Behaviour.FullSubmissionStaysInBounds` | src/mcon/mcon.c:231-244 | where submit takes all staged operations, between calls the SQ is empty, the counter is exact and at most io_uring_queue_size, and the CQ has room for all that may be posted |
| `Behaviour.LostClientsWedgeTheInstance` | src/mcon/event_processing_io_uring.c:70-77 | where every submit takes all it is offered, after io_uring_queue_size failed registrations no later submit moves an operation |
| `Witnesses.InstanceCanWedge` | src/mcon/event_processing_io_uring.c:70-77 | an honest run of full submissions that gets there |
| `Submission.StagedStayExactly` | src/mcon/mcon.c:234-237 | a submit leaves operations staged, though the kernel takes all it is offered, if and only if some were staged and it adds none |
| `Submission.FullRingIsStuck` | src/mcon/mcon.c:234-237 | with a full SQ, no continuation submits anything or changes what is staged |
| `Submission.StagedAreLostExactly` | src/mcon/mcon.c:221-244 | operations staged while nothing is in flight are never handed over, whatever an honest consumer and the environment do, if and only if the SQ is full, the counter stands at the ring's size, or no session and no accept can add anything to the queue |
| `Submission.StuckExactly` | src/mcon/mcon.c:231-244 | with work in the queue and sqe_in_flight other than io_uring_queue_size, no submit of any continuation hands anything over if and only if the SQ is full |
| `Submission.WedgedExactly` | src/mcon/mcon.c:231-244 | under full submission, with work in the queue and an epoll descriptor, no continuation moves anything if and only if as many clients could not be registered as the ring has entries |
| `Draining.FinishOne` | src/mcon/event_processing_io_uring.c:198-250 | from any state with something in flight and an epoll descriptor, a run of the kernel and the handler takes an operation home and leaves queue and SQ alone |
| `Submission.NoLostAcceptWithFullSubmission` | src/mcon/mcon.c:220-246 | where every submit takes all it is offered, NoLostAccept holds with the accept in the queue or with the kernel, never staged |
| `Witnesses.SubmissionCanBeLost` | src/mcon/mcon.c:236-237 | an honest run with one failed submit after which, whatever follows, the waiting client's accept is never submitted |
| `Witnesses.ServerCanStarve` | src/mcon/mcon.c:221-237 | the same in the default configuration with 248 of 256 entries of the SQ free |
| `Behaviour.ShutdownCompletesExactly` | src/mcon/session.c:122-123 | in any reachable shutting-down state a step completes the shutdown, with both descriptors -1, if and only if it ends the last active session |
| `Behaviour.ShutdownOfAnInstance` | src/mcon/mcon_helpers.c:7-14 | over whole runs: shutting down continues until the first state without active sessions, and is complete in that state, whichever closes and detaches lead there |
| `Behaviour.IdleShutdownStaysOpen` | src/mcon/mcon.c:171-191 | a shutdown that finds no active session is not complete |
| `Admission.ShutdownAdmitsNobodyFromQuiet` | src/mcon/mcon.c:184-188 | from a shutdown with no accept live, requested or announced, no run registers another client |
| `Admission.ShutdownTakesNobodyExactly` | src/mcon/mcon.c:220-229 | after a shutdown no honest run takes on another client if no accept is live and either none is requested or announced or the only session is taken; and, unless something else stands in the way, only if; busy and full servers included |
| `Admission.IdleShutdownTakesNobodyExactly` | src/mcon/mcon.c:220-229 | the same if-and-only-if for every shutdown with nothing outstanding and fewer lost clients than ring entries |
| `Admission.CompletedShutdownTakesNobody` | src/mcon/mcon_helpers.c:7-14 | after a completed shutdown no run takes on another client |
| `Admission.PendingIsTaken` | src/mcon/event_processing_io_uring.c:30-82 | an accept already submitted when the CQ is empty takes another client in some run, shutdown or not |
| `Aim.AcceptsStayAimed` | src/mcon/io_uring_actions.c:23 | while mcon has a server socket, every outstanding accept is aimed at it |
| `Behaviour.OneHangupPerClient` | src/mcon/event_processing_session.c:53-61 | between two hangups reported for a slot, the slot was prepared for a new client |
| `Queries.ErrorQueryReachesItsClient` | src/mcon/event_processing_session.c:65-69 | getsockopt asks the right client if and only if the slot's close has not been executed |
| `Queries.SocketReachesItsClient` | src/mcon/session.c:128-132 | the descriptor handed out leads to the session's connection if and only if the close has not been executed; not closing suffices |
| `Queries.SafeUntilNextCallExactly` | src/mcon/session.c:128-132 | the slot's descriptor stays good through whatever happens before the next call if and only if no close of the slot has been submitted |
| `Queries.SafeUnlessClosing` | src/mcon/event_processing_session.c:65-69 | with everything submitted, that is if and only if the session is not closing |
| `Witnesses.ErrorQueryCanReachAStranger` | src/mcon/event_processing_session.c:65-69 | an honest run in which it asks a stranger's descriptor and reports the answer for the session |
| `Witnesses.SocketCanBeAStrangers` | src/mcon/session.c:128-132 | in the same state mcon_session_get_socket succeeds with the stranger's descriptor |
| `Witnesses.ClientsCanComeAfterShutdown` | src/mcon/mcon.c:220-229 | an honest run in which a client is taken on after mcon_shutdown succeeded |
| `Witnesses.CounterCanBeWrong` | src/mcon/event_processing_io_uring.c:70-77 | an honest run after which nothing is in flight and sqe_in_flight is 1 |
| `Answers.SessionIoAnswers` | src/mcon/session.c:36-97 | EINVAL exactly for an index out of range, EBUSY exactly for a free or closing session or one with a conflicting bit, accepted exactly otherwise if the queue has room; a refusal changes nothing, an acceptance adds one operation and sets one bit |
| `Answers.AcceptedExactly` | src/mcon/session.c:36-97 | the same in terms of outstanding operations: a drain or read is accepted whatever the session writes, and so on |
| `Answers.DetachAnswers` | src/mcon/session.c:99-126 | EINVAL, EBUSY and failure of EPOLL_CTL_DEL, each exactly when; else the slot is free, on top of the stack and in its next generation |
| `Answers.GetSocketAnswers` | src/mcon/session.c:128-132 | EINVAL exactly out of range, EBUSY exactly for a free session, else its descriptor |
| `Answers.EventsNameTheirOperation` | src/mcon/event_processing_io_uring.c:94-196 | over every run a finished read is reported as READ_COMPLETE and as nothing else, likewise write, drain and close |
| `Answers.EachKindIsReportedOnce` | src/mcon/event_processing_io_uring.c:94-196 | exactly-once completion kind by kind, with the four event types written out |
| `Answers.CompletionAnswers` | src/mcon/event_processing_io_uring.c:94-196 | a completion is reported once, with the kernel's result, for its session, takes its bit back or frees the slot, and touches no other session |
| `Answers.AcceptAnswers` | src/mcon/event_processing_io_uring.c:18-92 | the outcomes of an accept: EAGAIN reports nothing and asks for nothing; an error is reported without a session; an unregistrable client is disconnected; any other gets the slot freed last |
| `Answers.SessionEventAnswers` | src/mcon/event_processing_session.c:9-79 | malformed, too large, stale and fresh events, in that order; a fresh one is answered with exactly the events its bits call for, in order, unless the query fails |
| `ReadinessSteps.ReportsExactly` | src/mcon/event_processing_session.c:37-76 | EPOLLIN gives READ_RDY, EPOLLHUP gives READ_SHUTDOWN, EPOLLRDHUP a hangup if none was reported, EPOLLERR the error; nothing else, each once |
| `Answers.SubmitAnswers` | src/mcon/mcon.c:220-246 | how many accepts a submit adds, how many operations it moves, which, and which the kernel gets |
| `Answers.DescriptorsAreGiven` | src/mcon/mcon.c:164-168 | over every run the instance uses the two descriptors it was started with, or none |
| `Answers.ShutdownAnswers` | src/mcon/mcon.c:171-191 | EBUSY, EINVAL and a failed system call, each exactly when; a refusal changes nothing |
| `Answers.NewInstance` | src/mcon/mcon.c:58-92 | all sessions free and in generation 0, handed out from index 0 on; nothing queued, asked for or counted |
| `Answers.IdleCallSilencesTheEventfd` | src/mcon/event_processing_io_uring.c:254-263 | a call that finds the CQ empty, with nothing going on meanwhile, leaves the eventfd at zero and changes nothing else |
| `Answers.EventfdFalls` | src/mcon/event_processing_io_uring.c:252-257 | no step but the handler's clearing lowers the eventfd |
| `Answers.ClearingBegins` | src/mcon/event_processing_io_uring.c:254 | the handler clears only if no iteration of the loop was completed |
| `Ordering.GroupsHoldOneKind` | src/mcon/io_queue.c:35-54 | in every reachable state the groups hold closes, drains, writes, reads and accepts, in this order |
| `Ordering.QueueIsInOrder` | src/mcon/io_queue.h:29-32 | in every reachable state nothing queued is more urgent than what leaves before it |
| `Ordering.SubmitMovesTheMostUrgent` | src/mcon/io_queue.c:59-86 | what a submit moves is in order, and nothing it leaves is more urgent than anything it moves |
| `Ordering.OperationsQueueUp` | src/mcon/io_queue.c:31-57 | first come, first served within a kind: an operation is last of its kind, and no other kind is affected |
| `Cycle.RequestComesFrom` | src/mcon/event_processing_io_uring.c:20-37 | a request comes only from an edge of the listening socket or an accept completion that is not EAGAIN |
| `Cycle.RequestIsMadeExactly` | src/mcon/event_processing.c:14-15 | in every reachable state exactly these make one |
| `Cycle.IdleServerIsQuiet` | src/mcon/event_processing_io_uring.c:20-25 | from a state without request, edge, waiting client or such a completion, no accept is asked for or added until a client arrives or an accept fails |
| `Tokens.Layout` | src/mcon/epoll_entry.h:7-23 | which bits of the token hold which field |
| `Tokens.FixedTokens` | src/mcon/mcon.c:131-156 | the tokens of the server socket and of the eventfd |
| `Reachability.Reachable` | src/mcon/mcon.c:17-92 | every state an accepted configuration can reach satisfies the invariant |
| `Reachability.StepKeeps` | src/mcon/mcon.c:193-246 | every step of mcon and of its environment keeps the invariant |
| `Calls.InitHolds` | src/mcon/mcon.c:58-92 | a new instance satisfies the invariant |
| `Calls.SessionIoKeeps` | src/mcon/session.c:36-97 | read, write, drain and close keep it, whether accepted or refused |
| `Calls.DetachPushes` | src/mcon/session.c:103-117 | a session that may be detached is registered and finds room on the free stack |
| `Calls.DetachKeeps` | src/mcon/session.c:99-126 | detach keeps the invariant, for every truthful answer of EPOLL_CTL_DEL |
| `Calls.SubmitKeeps` | src/mcon/mcon.c:220-246 | submit keeps it, for every answer of io_uring_submit |
| `Calls.StartKeeps` | src/mcon/mcon.c:124-169 | so does start, successful or not |
| `Calls.ShutdownKeeps` | src/mcon/mcon.c:171-191 | so does shutdown |
| `Calls.ServerEventKeeps` | src/mcon/event_processing.c:11-20 | the edge of the listening socket turns into a request without losing the accept wakeup |
| `ReadinessSteps.SessionEventKeeps` | src/mcon/event_processing_session.c:9-79 | a readiness event, fresh, stale or malformed, keeps the invariant |
| `ReadinessSteps.HangsOfReadiness` | src/mcon/event_processing_session.c:53-61 | one readiness event reports a hangup exactly if it has the bit and the latch was open |
| `Handler.IoKeeps` | src/mcon/event_processing_io_uring.c:94-161 | read, write and drain completions keep the invariant |
| `Handler.CloseCqePushes` | src/mcon/event_processing_io_uring.c:179-181 | the push of a closed session cannot fail |
| `Handler.CloseKeeps` | src/mcon/event_processing_io_uring.c:163-196 | a close completion keeps the invariant |
| `AcceptSteps.AcceptIsReserved` | src/mcon/event_processing_io_uring.c:49-51 | at an accept completion the free stack is not empty, so the pop-failure exit is unreachable |
| `AcceptSteps.AcceptKeeps` | src/mcon/event_processing_io_uring.c:18-92 | all five outcomes of an accept completion keep the invariant |
| `Ledger.Pigeonhole` | src/mcon/mcon.c:61-62 | a duplicate-free stack of indices never exceeds its capacity |
| `Ledger.ResidueNext` | src/mcon/session_helpers.c:18-21 | the wrapped successor of an 8-bit generation is the remainder by 256 of the next epoch, so a slot's generation stays its epoch modulo 256 |
| `KernelSteps.NextAddressDiffers` | src/mcon/event_processing_io_uring.c:243-246 | in a CQ of at least two slots consecutive completions have different addresses |
| `KernelSteps.AccountCounts` | src/mcon/event_processing_io_uring.c:243-246 | the pointer comparison sees the consumption, whatever was posted meanwhile, and makes the counter exact |
| `KernelSteps.ExecutedHitsItsSlot` | src/mcon/session.c:83-97 | what the kernel executes is the slot's own operation, aimed at the slot's own connection |
| `KernelSteps.ExecuteKeeps` | src/mcon/session.c:83-97 | executing any pending operation, in any order and with any result, keeps the invariant |
| `Pipeline.DropFirstIsSuffix` | src/mcon/io_queue.c:59-86 | what a transfer leaves is the suffix of the groups' concatenation |
| `Pipeline.DropFirstIsPrioritised` | src/mcon/io_queue.h:29-32 | each group gives up a prefix, and a later group nothing before all more urgent ones are empty |
| `Pipeline.BatchesDrain` | src/mcon/io_queue.c:59-86 | however a transfer is cut into calls, what comes out is the concatenation in priority order |
| `Pipeline.FlatGrows` | src/mcon/io_queue.c:31-57 | a push adds exactly its entry to the whole |
| `Containers.IoQueue.Push` | src/mcon/io_queue.c:31-57 | close to group 0, drain to 1, write to 2, read to 3, accept to 4, at the end; or fails at capacity and changes nothing |
| `Containers.IoQueue.PopIntoRing` | src/mcon/io_queue.c:59-86 | moves exactly min(count, ring space, queue size) entries, the first of the concatenation in order, and leaves exactly the rest; the non-NULL assertion holds |
| `MconClass.Create` | src/mcon/mcon.c:17-92 | EINVAL exactly for the configurations mcon_config_validate refuses, then an error if something could not be had, without drawing an id; else an instance in the initial state with the next non-zero id |
| `MconClass.Mcon.constructor` | src/mcon/mcon.c:58-92 | the two loops leave fresh sessions and the stack counting down, which is the initial state |
| `MconClass.Mcon.IsActive` | src/mcon/session.c:134-141 | true exactly for active slots and, as in the source, for indices out of range |
| `MconClass.Mcon.ValidateArgs` | src/mcon/session.c:11-22 | EINVAL for an index out of range, EBUSY for an inactive or conflicting slot, in that order |
| `MconClass.Mcon.Read` | src/mcon/session.c:36-49 | performs the read step: error code and whole new state |
| `MconClass.Mcon.Write` | src/mcon/session.c:51-65 | performs the write step |
| `MconClass.Mcon.Drain` | src/mcon/session.c:67-81 | performs the drain step |
| `MconClass.Mcon.Close` | src/mcon/session.c:83-97 | performs the close step |
| `MconClass.Mcon.Detach` | src/mcon/session.c:99-126 | push, unregister, undo or reset, complete shutdown: performs the detach step |
| `MconClass.Mcon.GetSocket` | src/mcon/session.c:128-132 | EINVAL, EBUSY or the slot's descriptor, as the query SocketReachesItsClient is about |
| `MconClass.Mcon.ActiveSessionCount` | src/mcon/mcon.c:263-265 | the count the theorem ActiveCountIsExact is about |
| `MconClass.Mcon.CompleteShutdown` | src/mcon/mcon_helpers.c:7-14 | under its callers' test, clears both descriptors and the flag, and nothing else |
| `MconClass.Mcon.ResetAfterClose` | src/mcon/session_helpers.c:15-22 | the stepwise 8-bit arithmetic is the successor modulo 256 |
| `MconClass.Mcon.EnqueueAccept` | src/mcon/io_uring_actions.c:6-28 | refuses when every free session is spoken for, then when the queue is full, else adds one accept |
| `MconClass.Mcon.EnqueueAccepts` | src/mcon/mcon.c:221-229 | the loop adds as many accepts as the maximum, the free sessions and the queue allow, and clears the request exactly if it adds one |
| `MconClass.Mcon.Submit` | src/mcon/mcon.c:220-246 | performs the submit step, and returns what was submitted or -1 |
| `MconClass.Mcon.Start` | src/mcon/mcon.c:124-169 | EINVAL for an unusable socket; a failed second registration undoes the first; else performs the start step |
| `MconClass.Mcon.Shutdown` | src/mcon/mcon.c:171-191 | performs the shutdown step |
| `MconClass.Mcon.ServerSocketEvent` | src/mcon/event_processing.c:11-20 | performs the step of an event of the listening socket |
| `MconClass.Mcon.StoreReadiness` | src/mcon/event_processing_session.c:35-76 | the array holds exactly the events the bits call for, in order, and only the hangup bit of the slot changes |
| `MconClass.Mcon.SessionEvent` | src/mcon/event_processing_session.c:9-79 | performs the readiness step; a fresh event is answered with exactly the events its bits call for; writes stay within the capacity given |
| `MconClass.Mcon.ProcessAcceptCqe` | src/mcon/event_processing_io_uring.c:18-92 | performs the accept-completion step: 0 exactly for EAGAIN, -1 exactly for a client that gets no session, else a NEW_CONNECTION with its result and session; asks for accepts exactly if it is not EAGAIN |
| `MconClass.Mcon.ProcessReadCqe` | src/mcon/event_processing_io_uring.c:94-115 | performs the read-completion step and stores READ_COMPLETE with the result and the session |
| `MconClass.Mcon.ProcessWriteCqe` | src/mcon/event_processing_io_uring.c:117-138 | performs the write-completion step and stores WRITE_COMPLETE with the result and the session |
| `MconClass.Mcon.ProcessDrainCqe` | src/mcon/event_processing_io_uring.c:140-161 | performs the drain-completion step and stores DRAIN_COMPLETE with the result and the session |
| `MconClass.Mcon.ProcessCloseCqe` | src/mcon/event_processing_io_uring.c:163-196 | performs the close-completion step and stores CLOSE_COMPLETE with the result and the session |
| `MconClass.Mcon.ProcessCqe` | src/mcon/event_processing_io_uring.c:211-233 | the dispatch performs the step of the operation at hand |
| `MconClass.Mcon.AccountCqe` | src/mcon/event_processing_io_uring.c:243-249 | performs the accounting step |
| `MconClass.Mcon.CqeLoop` | src/mcon/event_processing_io_uring.c:203-250 | ends within the number of operations submitted before the call, even though the environment acts between any two steps and EAGAIN accepts store nothing; the array holds exactly the events reported |
| `MconClass.Mcon.SettleEventfd` | src/mcon/event_processing_io_uring.c:254-263 | clearing, checking and re-arming as three steps with the kernel at work before each; with an empty CQ and nothing going on the eventfd ends at zero |
| `MconClass.Mcon.ProcessIoUringEvent` | src/mcon/event_processing_io_uring.c:198-266 | a call is a run of the handler's and the environment's steps; it returns at most min(capacity, operations submitted) events, which are exactly those reported, in order; it silences the eventfd if there was nothing to do, and does not lower it if it returns an event |
| `MconClass.Mcon.ProcessEvent` | src/mcon/mcon.c:193-218 | foreign tokens and source UNKNOWN give -1 and change nothing; every other token reaches its handler with the session and generation it encodes |
| `Tokens.DecodeEncode` | src/mcon/epoll_entry.h:59-78 | decoding undoes encoding if and only if the fields fit their widths |
| `Tokens.EncodeDecode` | src/mcon/epoll_entry.h:59-78 | every 64-bit word is the token of the entry it decodes to |
| `Tokens.IdsAreDistinct` | src/mcon/mcon.c:64-66 | any 65535 consecutive creates get different ids, none of them 0 |
| `Tokens.IdsRepeat` | src/mcon/mcon.c:64-66 | an id comes back exactly at multiples of 65535 creates |
| `Tokens.TokensAreTheirInstances` | src/mcon/mcon.c:252-261 | within that window an instance owns exactly the tokens it encoded itself |

## Left out

- System calls, liburing and memory: their results are parameters, their effects are steps of the environment. `src/mcon/socket.c`, `apps/`, the build and the tests are not part of this model.
- What `mcon_create` releases again when it fails half-way, and `mcon_destroy`. One parameter says whether all it needs could be had, another of `mcon_start` whether the socket is usable.
- Starting an instance a second time, also after a completed shutdown; concurrent creates.
- The getters `mcon_get_server_socket` and `mcon_is_shutting_down`: they return a field.
- Buffers and byte counts of reads, writes and drains; the event masks of registrations and whether they are edge-triggered (`src/mcon/event_processing_io_uring.c:64-65`).
- An upper bound on operations in flight when `io_uring_submit` fails or takes only part of the SQ: what stays in the SQ is not counted when the limit is computed (`src/mcon/mcon.c:232-244`), so `Behaviour.FullSubmissionStaysInBounds` supposes full submission. Exactness of the counter does not.
- Completions the kernel keeps back because the CQ is full wait in the model to be posted; the kernel's overflow list is not modelled.
- `_process_accept` reads the completion's result after io_uring_cqe_seen; that the kernel could overwrite the entry by then is not modelled.
- Delivery of a hangup at least once: a failing getsockopt turns the reply into an error after the latch is set (`src/mcon/event_processing_session.c:60-78`). The model has this behaviour, and at most once is what is proved.
- The eventfd counter is unbounded, and epoll's own wakeups are reduced to what mcon relies on: an edge stays ready until fetched, and a positive eventfd keeps being reported.
- errno is the error an operation stores itself; what a failed system call or kqueue_push leaves there is one value each.
- MconClass.Create: does not model memory and descriptors left by a failure, because nothing else of the instance exists then.
