# Verification of a multithreaded ping-pong server

A Dafny model of the server, with proofs about its four connected parts:

- **the worker pool** as a system of atomic steps: any number of workers and client threads,
  two mutexes, two condition variables with spurious wakeups, one task queue, one counter of
  active tasks and one shutdown flag (`ThreadPool`, `PoolInvariant`, `PoolTheorems`, `Schedules`,
  `WaitReturn`, `WaitEarly`);
- **the lifetime of connections** across the main loop and the pool: reference counts, the sweep
  that acts on a snapshot after it has unlocked, and the connection cap (`Server`,
  `ServerInvariant`, `ServerTheorems`, `ServerRuns`, `ServerDestroys`, `ServerTable`, `Orders`,
  `ServerConnections`, `ServerAnswers`);
- **incremental framing**: a resumable reader and a writer over a non-blocking socket, against a
  pure splitter of the byte stream, and the messages field by field (`Framing`, `NetIo`,
  `Connection`, `Resume`, `Protocol`, `ConnContext`);
- **the containers**: the linked work queue, the growable ring buffer, the growable array, in-place
  compaction, and the connection table that keeps two arrays in step (`CoinQueue`, `EzQueue`,
  `EzArray`, `Compaction`, `ConnTable`, `ConnMgr`, `TableRuns`).

`dafny verify dfyconfig.toml` checks everything.

## How the parts fit

`ThreadPool` gives every thread a program counter. A step is one lock, one unlock, or one action
inside a critical section; `WorkerNext` follows `coin_thread_worker`
(`src/libs/concurinc/src/concurinc.c:441-593`) and `ClientNext` follows submit, wait and destroy
(`:352-412`, `:182-251`, `:281-319`, `:918-970`). A signal moves a chosen set of sleepers, at least one
if there is one; a broadcast moves all; a sleeper may also wake by itself (POSIX.1-2017, System
Interfaces, `pthread_cond_signal` and `pthread_cond_wait`). Tasks carry their position in submission
order. The pool's queue is a sequence here; `CoinQueue` proves that the linked list behaves as one.

`Server` puts the main loop (`src/main.c:123-302`) on top: each step of the main thread is at most
one step of the pool's only client, so every run of the server is a run of the pool
(`ServeRefinesPool`). A worker that runs a task body changes the state of the context and lowers its
count in one step, because both happen under the context mutex (`src/main.c:434-502`). What a body
may do to the state is taken from `Connection` (`TasksMoveAsAllowed`). `ServerConnections` adds the
bytes: each task body takes its turn on the connection it names and each hang-up closes one, so that
in every run of the server every live connection is a run of `Connection` (`EveryConnectionConverses`),
and what is proved there for any turns holds for it.

What the functions on values mean is said apart from them. `Protocol` writes and reads messages field
by field, as a client does (`tests/client.py:19-32`), and compares the splitter and the reply with that.
`Resume` tells from the script of its calls alone what a turn moves, how it ends, and that a read that
blocks goes on as if it had not. `Orders` says what a report of poll asks for, slot by slot, and that
this is what the main thread carries out.

Code that works in place is modelled in place. The socket, the connection context, the ring buffer,
the array, the linked queue and the connection manager are classes; their methods are proved equal
to functions on values (`Turned`, `Put`, `Take`, `Compact`, `AddedAll`, `After`), and the properties of
whole runs are proved about those functions. `ServerTable` shows that the server's table of slots and
the manager's two arrays are the same table: over a whole sweep and the update after it, with the
workers' events in between (`SweepAndUpdateRefine`), and in each round of the accept loop.

Progress is stated in two ways. `BusyIsUnblocked` names, for every thread that is not at rest, a
thread that can step and stands at most two mutexes before it. `Schedules` builds runs: without
spurious wakeups, successful pushes or new calls, every pushed task can be finished while the pool
is open, and destroy can be brought through all its joins once it has set the flag. `ServerDestroys`
does the same for the server: from every state of the loop in which a connection has closed, a run
destroys it, or nothing ever does (`DestroyedExactlyIfNotLeaked`). `ServerAnswers` does it with the
bytes: from every state of the loop a run answers every frame of an open connection, unless the round
under way holds a hang-up of it (`ServerAnswersEveryFrame`, `AnsweredExactly`).

## Where the code does less than its documentation or a reader might expect

- `coin_tpool_wait` is documented to return once every task has finished
  (`src/libs/concurinc/include/concurinc.h:62-66`). A worker releases the queue mutex before it counts
  itself, so a popped task is briefly in neither count. `WaitCanReturnEarly` is a run in which wait
  reports success before the only task has started. `WaitPromiseExact` gives the exact condition at the
  call: every return finds finished what was pushed before the call if and only if, at the call,
  nothing is queued and no worker is between a pop and its increment. `PassGuaranteesReturn` says
  what every return does guarantee. `CleanExitLeavesNamed` is a run of the server in which the clean
  exit is about to free a context that a worker still has to lock.
- While the queue is not empty and nobody is counted, wait tests again and again without sleeping
  (`src/libs/concurinc/src/concurinc.c:208-218`): `WaitSpins` gives, for any number of rounds, a run of the
  caller alone that ends where it began. Until destroy is called every call can still return
  (`WaitCanReturn`). Under the shutdown flag it can return if and only if the queue is empty
  (`WaitReturnsUnderFlagExactly`); otherwise no run whatever brings it to a return (`StuckForEver`), and
  `WaitCanWaitForEver` is a reachable state in which a caller is caught so. Progress is therefore
  stated for named threads, never as "some thread can step".
- A resumed send starts again at the beginning of the send buffer
  (`src/libs/net_io/netio.c:229`). Byte counts are conserved, but the wire holds the replies exactly if
  each went out in one call (`AnyRun`); `SplitReplyCorrupts` gives, for every frame and every split, a
  run whose wire is wrong.
- A request declares the length of its content, a reply that of the whole message
  (`src/libs/protocols/pong.c:28`, `:55`): read as a request, no reply is complete (`ReplyIsNoFrame`).
- A hang-up closes at once (`src/main.c:257-275`). What the client had sent and the server had not answered
  by then is never answered (`LostKeepsAnswers`).
- Nothing checks a declared length against the receive buffer. `BufferSufficesExactly`: reads stay
  within the buffer in every run if and only if no length the stream declares passes 1021.
- Growing the two tables does not clear the new slots (`src/libs/ezarray/ezarray.c:197`,
  `src/libs/connmgr/connmgr.c:445`), although compaction scans up to the capacity. `AddKeepsAligned` says
  exactly which memory keeps the tables aligned; `GrowthOntoGarbage` is a run of the server from its
  start, with fifteen clients, whose next update reports success and leaves the tables unaligned, and
  `GarbageBreaksAlignment` what the next compaction makes of them. Theorems over whole runs assume
  empty memory (`GrownSlotsEmpty`) for the rounds that grow the arrays, and nothing where they do not
  grow (`SmallServerAligned`).
- When the poll array cannot grow after the context array has, the tables part: exactly then
  (`FailedAddAligned`), and a run of the server comes to it (`PollArrayCannotGrow`).
- A connection whose receive or send buffer cannot be allocated is reported as created
  (`src/libs/connmgr/connmgr.c:196-215`): nothing is queued, and the accept loop goes on without it.
  `Created` and `AcceptOne` do the same.
- A failed submit of a send task leaves the reference raised (`src/main.c:286-292`). The model counts
  it in `leaked`; a context with a leaked reference is never destroyed by the loop (`FateOverRuns`), and
  `ClosedButNeverDestroyed` is a run that leaves one closed for ever. A leak is the only obstacle: while the
  loop is not ending on an error, a closed connection can be destroyed if and only if nothing has leaked
  (`ClosedConnectionsGoExactly`).
- The cap is tested by equality with an offset of one (`src/libs/net_io/netio.c:134-163`), so active and
  waiting connections together can reach 1025, and do not pass it.

## Model

| member | source | states |
|---|---|---|
| PoolInvariant.WorkerKeepsLocks | src/libs/concurinc/src/concurinc.c:454-573 | a worker step leaves every mutex held by exactly the thread its owner names, or by nobody |
| PoolInvariant.ClientKeepsLocks | src/libs/concurinc/src/concurinc.c:376-403 | the same for a step inside submit, wait or destroy |
| PoolInvariant.WorkerKeepsHistory | src/libs/concurinc/src/concurinc.c:481-553 | popping moves the oldest task into one hand and running it moves it to finished; no other worker step touches a task |
| PoolInvariant.ClientKeepsHistory | src/libs/concurinc/src/coin_queue.c:65-158 | a push appends the next id, the final discard takes exactly the queue, no other client step touches a task |
| PoolInvariant.WorkerKeepsActive | src/libs/concurinc/src/concurinc.c:512-574 | the counter stays equal to the number of workers between increment and decrement |
| PoolInvariant.WorkerKeepsWakeup | src/libs/concurinc/src/concurinc.c:454-510 | no worker step leaves work queued and a worker asleep with nobody awake to look; the relay signal after a pop is what this needs |
| PoolInvariant.ClientKeepsWakeup | src/libs/concurinc/src/concurinc.c:383-398 | the same for clients; the signal after a push is what this needs |
| PoolInvariant.WorkerKeepsShutdown | src/libs/concurinc/src/concurinc.c:471-478 | workers leave only under the shutdown flag, and nobody falls asleep under it |
| PoolInvariant.ClientKeepsShutdown | src/libs/concurinc/src/concurinc.c:918-960 | between setting the flag and the broadcast only the stopper stands between sleepers and their wakeup; joined workers have exited; a waiter goes to sleep only on a positive counter |
| PoolInvariant.WorkerKeepsPass | src/libs/concurinc/src/concurinc.c:190-236 | a waiter that saw no active task and still holds the active mutex keeps seeing none |
| PoolInvariant.StepKeepsInv | src/libs/concurinc/src/concurinc.c:182-593 | every step of every thread, spurious wakeups included, keeps the whole invariant |
| PoolInvariant.ReachableInv | src/libs/concurinc/src/concurinc.c:182-593 | the invariant holds in every reachable state, for any number of workers and clients |
| PoolTheorems.ExactlyOnce | src/libs/concurinc/src/concurinc.c:352-561 | pushed = queued + in hand + finished + discarded as multisets, and no task is in two places or twice in one |
| PoolTheorems.StartsInSubmissionOrder | src/libs/concurinc/src/concurinc.c:376-481 | the popped tasks followed by the queue are the pushed tasks in order |
| PoolTheorems.ActiveTasksExact | src/libs/concurinc/src/concurinc.c:512-574 | the counter is exact, never below zero or above the number of workers, and a sleeping waiter has a counted worker left to wake it |
| PoolTheorems.ExitedIsQuiet | src/libs/concurinc/src/concurinc.c:577-592 | once every worker has exited no task is in hand and the counter is zero |
| PoolTheorems.NoLostWakeup | src/libs/concurinc/src/concurinc.c:454-510 | queue mutex free, no shutdown, work queued and a worker asleep: some other worker is awake, empty-handed and heading for the queue test |
| PoolTheorems.HolderStepsOrWaitsHigher | src/libs/concurinc/src/concurinc.c:376-573 | whoever holds a mutex can step or waits for one of strictly higher rank, so there is no circular wait |
| PoolTheorems.BusyIsUnblocked | src/libs/concurinc/src/concurinc.c:376-573 | before every thread that is neither at rest nor joining stands a thread that can step: itself, the owner of the mutex it waits for, or the owner of the mutex that owner waits for |
| PoolTheorems.WorkNeverStalls | src/libs/concurinc/src/concurinc.c:454-510 | in a running pool with work queued some worker is awake and unblocked, or a submitter that is about to wake a sleeper can step |
| Schedules.EveryTaskCanFinish | src/libs/concurinc/src/concurinc.c:352-593 | until destroy is called, from every state a run without spurious wakeups, pushes or new calls finishes every task ever pushed |
| PoolTheorems.WaitPassGuarantee | src/libs/concurinc/src/concurinc.c:188-242 | when wait sees both counts at zero, every unfinished task is carried by a worker between its pop and its increment; at most one per worker |
| PoolTheorems.WaitPassExact | src/libs/concurinc/src/concurinc.c:188-226 | at that point every task has finished exactly if no worker is between its pop and its increment |
| WaitReturn.PassGuaranteesReturn | src/libs/concurinc/src/concurinc.c:188-242 | from that point on, hence at the return: a task pushed by then is unfinished only if the worker that carries it carried it there already, between its pop and its increment |
| WaitReturn.SafeAtCallFinished | src/libs/concurinc/src/concurinc.c:188-242 | a task that is finished, or carried past its increment, when wait is called has finished at every return, whatever other threads do |
| WaitReturn.EarlyReturnRun | src/libs/concurinc/src/concurinc.c:188-242 | if anything is queued or between a pop and its increment when wait is called, some run returns with a task unfinished that was pushed before the call |
| WaitReturn.WaitPromiseExact | src/libs/concurinc/include/concurinc.h:62-66 | the documented promise holds at every return exactly if, at the call, nothing is queued and no worker is between a pop and its increment |
| WaitReturn.WaitCanReturn | src/libs/concurinc/src/concurinc.c:182-242 | until destroy is called, from every state in which wait begins a run without spurious wakeups, pushes or new calls brings it to a return |
| WaitReturn.StuckForEver | src/libs/concurinc/src/concurinc.c:208-218 | a caller inside wait under the shutdown flag with work left in the queue never returns, in any run |
| WaitReturn.WaitReturnsUnderFlagExactly | src/libs/concurinc/src/concurinc.c:182-242 | a call of wait under the shutdown flag can return exactly if nothing is left in the queue |
| WaitReturn.WaitSpins | src/libs/concurinc/src/concurinc.c:190-218 | with work queued and nobody counted, for any number of rounds a run of the caller alone tests that often, sleeps never, and ends in the same state |
| WaitEarly.WaitCanReturnEarly | src/libs/concurinc/src/concurinc.c:188-242 | a reachable state in which wait is about to report success and the only task submitted has not run |
| WaitEarly.WaitCanWaitForEver | src/libs/concurinc/src/concurinc.c:208-218 | a reachable state in which a caller has begun wait and no run whatever returns it |
| PoolTheorems.ShutdownStep | src/libs/concurinc/src/concurinc.c:471-592 | under the shutdown flag every worker step lowers a measure over all program counters, no step raises it, nobody pops or falls asleep |
| PoolTheorems.ShutdownTerminates | src/libs/concurinc/src/concurinc.c:918-970 | over any run after shutdown the workers take at most as many steps as they have left |
| PoolTheorems.ShutdownBound | src/libs/concurinc/src/concurinc.c:951-960 | at most fifteen steps per worker after shutdown; and every worker that has not exited is unblocked, or asleep with the broadcaster able to step |
| Schedules.WorkersExit | src/libs/concurinc/src/concurinc.c:471-592 | from every state under the shutdown flag a run without spurious wakeups or new calls brings every worker to its end |
| Schedules.DestroyCanFinish | src/libs/concurinc/src/concurinc.c:918-970 | once destroy has set the flag, such a run brings it through all its joins, with no task in hand, nobody counted and no further task begun |
| PoolTheorems.DestroyDiscardsTheRest | src/libs/concurinc/src/concurinc.c:281-319 | after destroy, what was popped has finished and what was discarded is the unpopped rest in order |
| CoinQueue.Queue.Push | src/libs/concurinc/src/coin_queue.c:108-158 | appends one node behind the tail and keeps the chain; refuses a null task, and fails without memory, leaving the queue as it was |
| CoinQueue.Queue.Pop | src/libs/concurinc/src/coin_queue.c:174-219 | unlinks the head and returns its task; the rest is unchanged; an empty queue is reported |
| CoinQueue.Queue.Destroy | src/libs/concurinc/src/coin_queue.c:65-93 | frees every node once, from head to tail, with exactly the queued tasks in order |
| ServerInvariant.WorkerEventKeepsInv | src/main.c:434-502 | a task body lowers the count of the context it names, and every other worker step leaves contexts alone; the invariant of the loop stays |
| ServerInvariant.SubmitMovesRefs | src/main.c:231-254 | each step inside submit hands the reference raised before it to the queued task, or leaks it |
| ServerInvariant.MainKeepsRefs | src/main.c:126-302 | every step of the main thread keeps each count equal to tasks plus reservation plus leaks |
| ServerInvariant.MainKeepsLive | src/main.c:126-302 | no step of the main thread leaves a task naming a context that is gone |
| ServerInvariant.WorkerEventKeepsSnapshot | src/main.c:151-166 | a snapshot of closing with no references stays true after the mutex is released, whatever the workers do |
| ServerInvariant.ServeKeepsInv | src/main.c:123-302 | the invariant of the loop holds after every run, for any number of workers |
| ServerTheorems.TasksNameLiveContexts | src/main.c:126-182 | every queued or carried task names a context that has not been destroyed |
| ServerTheorems.MutexesBelongToLiveContexts | src/main.c:440-462 | every context mutex held or about to be locked belongs to a context that has not been destroyed |
| ServerTheorems.SweepIsSound | src/main.c:151-179 | when the sweep destroys on its snapshot, the context is still closing, no task names it, and no thread holds or wants its mutex |
| ServerTheorems.SweepSnapshotExact | src/main.c:151-166 | the snapshot is fatal exactly if the context is closing, no unfinished task names it and no reference has leaked |
| ServerTheorems.TasksMoveAsAllowed | src/main.c:446-493 | what the read and send tasks do to the connection's state is within the moves the server model allows a task body |
| ServerTheorems.FateOverRuns | src/main.c:126-302 | over any run: closing is never left, a destroyed context never comes back, one with a leaked reference is never destroyed |
| ServerTheorems.ServeRefinesPool | src/main.c:123-302 | whatever the server does to the pool is a legal run of the pool |
| ServerTheorems.ServeFromStart | src/main.c:109-302 | after any run from the start the invariant holds, the pool is in a reachable state, and active plus waiting connections are at most 1025 |
| ServerTheorems.NothingReachesDestroyed | src/main.c:123-302 | after any run from the start, no queued or carried task names a destroyed context, and no thread holds or is about to lock its mutex |
| ServerTheorems.ReferencesExact | src/main.c:231-299 | a live context's count is at least the unfinished tasks naming it, and equal between submits if none has failed |
| ServerTheorems.WaitLeavesNamed | src/main.c:306-316 | from the pass of the wait in the clean exit on, a context is still named by a task exactly if a worker still carries one for it that it had popped and not counted at the pass |
| ServerRuns.CleanExitLeavesNamed | src/main.c:306-316 | a run of the server that has left its loop, from which wait can come to report success while a worker still has to run a task naming a live context |
| ServerRuns.ClosedButNeverDestroyed | src/main.c:277-299 | a run of the server that leaves a closing context which no task names and which no continuation of the loop destroys |
| ServerDestroys.DestroyedExactlyIfNotLeaked | src/main.c:126-182 | from every state of the invariant: a connection that has closed is destroyed in some continuation exactly if the loop is not ending on an error and no reference to it has leaked |
| ServerDestroys.DestroyingRun | src/main.c:123-302 | such a continuation: update, poll, pass all events, let the workers finish every task, sweep once more |
| ServerDestroys.FailingDestroysNothing | src/main.c:240-247 | once a read could not be submitted, or the loop has stopped, no continuation destroys any context |
| ServerDestroys.ClosedConnectionsGoExactly | src/main.c:123-302 | the same in every state that the server reaches from its start, with any number of workers but none |
| ServerDestroys.LoopEndsExactly | src/main.c:123-302 | a step ends the loop exactly if it is told to stop at its test, update, poll or accept fails, or a read has not been submitted; a send that has not been submitted does not end it |
| Orders.ReportServed | src/main.c:190-299 | from poll to the next test of the loop, with any events of the workers in between: the main thread carries out what the report asks for and nothing else, slot by slot, up to input on the signal pipe |
| Orders.RunPushes | src/main.c:238-288 | over any run the pool gets exactly the tasks that the main thread has carried out, in that order |
| Orders.RunMarks | src/main.c:257-275 | over any run a context marked for a hang-up is closing at the end; the main thread changes the state of no other |
| Orders.EverySlotIsServed | src/main.c:190-299 | in a round without failure each connection before a signal gets a read exactly if poll reported input, a send exactly if it reported output, and is closed by the main thread exactly if it reported a hang-up; the pool gets these tasks in slot order and no others |
| Orders.AnyReportCanBeServed | src/main.c:183-299 | whatever poll reports, a run without failure brings the round to its end |
| ServerTable.EventEmpties | src/main.c:126-182 | every event but an update leaves the table as it is, with exactly the slots emptied whose contexts it destroyed |
| ServerTable.RunEmpties | src/main.c:126-182 | over any run up to the next update the table only has the slots emptied of exactly the contexts that the run destroyed |
| ServerTable.SweepAndUpdateRefine | src/libs/connmgr/connmgr.c:293-372 | from the sweep to poll, with any events of the workers in between: if server and connection manager show the same table before, they do after, the manager destroying what the server destroyed |
| ServerTable.AcceptRefines | src/libs/net_io/netio.c:134-163 | one round of the accept loop of the server is one of the connection manager's, report, lost arrivals and cap included |
| ServerTable.StartsTheSame | src/main.c:109-121 | server and connection manager start with the same table: the listener and the signal pipe waiting |
| ServerTable.AnyReportIsPossible | src/libs/connmgr/connmgr.c:456-459 | every active entry is polled for input and for output, so no report that the server model allows is ruled out |
| ServerConnections.EveryConnectionConverses | src/main.c:434-502 | in every run of the server, on any streams: a live connection has the state the server sees and is what some turns make of its stream, so it answered a prefix of its frames and sent eleven bytes per completed reply and those of the one under way |
| ServerConnections.NetRefinesServer | src/main.c:123-302 | every run with the bytes is a run of the server |
| ServerConnections.AnyScriptCanRun | src/main.c:434-502 | a worker at a task body can run it with any results of its calls |
| ServerAnswers.SendBodySends | src/main.c:469-502 | a send body outside shutdown puts on its client's wire the first bytes of the reply, as many as its calls move |
| ServerAnswers.ReadBodyReads | src/main.c:434-467 | a read body outside shutdown takes from its client's stream as many bytes as its calls move |
| ServerAnswers.ServerAnswersEveryFrame | src/main.c:123-302 | from every state of the loop, an open connection of which the round under way holds no hang-up has a continuation that hands over every frame of its stream and completes every reply; with no reply sent in pieces before, the wire then is the replies |
| ServerAnswers.AnsweredExactly | src/main.c:123-302 | under the same conditions, for every live connection: all its frames can be answered exactly if it is open or they have been |
| ServerAnswers.LostKeepsAnswers | src/main.c:257-275 | from the moment the main thread holds a context to close it: all its frames can be answered exactly if they have been |
| ServerAnswers.ReachedClientsCanBeAnswered | src/main.c:123-302 | in every state that the server reaches with a worker and a loop that is not failing, an open connection can be answered unless a hang-up of it is due |
| ServerAnswers.ClientGetsItsAnswers | tests/client.py:35-60 | a client that sends messages one after the other can be brought to read the answer to each, in order |
| ServerTheorems.BlockedMainLeavesWorker | src/main.c:231-248 | if the main thread waits for a mutex, some worker can step |
| ServerTheorems.SteadyLoopNeverStuck | src/main.c:123-302 | in every state of the loop the main thread or a worker can step |
| Framing.SplitFlatten | src/libs/net_io/netio.c:364-370 | complete frames written one after the other are split back into the same frames, whatever follows |
| Framing.SplitCovers | src/libs/net_io/netio.c:346-440 | every stream is its complete frames followed by a rest that holds none |
| Framing.ReplyTailIsNotHead | src/libs/protocols/pong.c:25-61 | no proper tail of a reply equals the head of the same length |
| Protocol.EncodedHeader | src/libs/net_io/netio.c:360-370 | for every type and every content of at most 65535 bytes: type, high byte, low byte and content are a frame of that length |
| Protocol.UnfinishedHasNoFrame | src/libs/net_io/netio.c:346-440 | a stream holds no frame exactly if it is the beginning of some message, not all of it |
| Protocol.SplitFindsMessages | src/libs/net_io/netio.c:346-440 | splitting a stream gives what was sent for some messages exactly if the stream is that followed by the beginning of another |
| Protocol.ReplyToClient | src/libs/protocols/pong.c:38-61 | for every number, volley, type and text: a ping is answered by a pong with the same number, the volley raised modulo 256 and "pong", every other message of eleven bytes by an error with the same number |
| Protocol.ReplyToOther | src/libs/protocols/pong.c:24-36 | a message of any other length is answered by an error with number 0 |
| Protocol.ReplyIsNoFrame | src/libs/protocols/pong.c:55 | no reply is a complete message by the reader's own rule |
| Protocol.ClientIsAnswered | tests/client.py:35-60 | after any turns a client's messages have been handed over from the first on; between replies, if none went out in pieces, it reads in the i-th eleven bytes the answer to its i-th message |
| NetIo.RecvAll | src/libs/net_io/netio.c:302-344 | receives, in order and behind what is there, exactly the bytes the outcome of the scripted calls says; interrupts are retried, would-block, error and end of stream are told apart |
| NetIo.SendAll | src/libs/net_io/netio.c:266-300 | puts on the wire exactly the first bytes of the buffer that the outcome says, with the same distinctions |
| Resume.OutcomeMoves | src/libs/net_io/netio.c:302-344 | a loop of calls moves what the calls offer before one ends it, as far as it is wanted and there; interrupts count for nothing |
| Resume.OutcomeEnds | src/libs/net_io/netio.c:302-344 | short of all that is wanted it ends as the first call does that is neither interrupted nor moves anything |
| ConnContext.CreateResponse | src/libs/protocols/pong.c:11-67 | writes the eleven bytes of the reply to the message, error replies included |
| ConnContext.ConnCtx.TakeHeader | src/libs/net_io/netio.c:346-392 | the header read computes the read turn of the specification in place |
| ConnContext.ConnCtx.TakeContent | src/libs/net_io/netio.c:394-440 | the content read does, reply and change of roles included |
| ConnContext.ConnCtx.HandleDataIn | src/libs/net_io/netio.c:190-216 | reads in the two read states, refuses in the others without an effect |
| ConnContext.ConnCtx.HandleDataOut | src/libs/net_io/netio.c:218-262 | computes the write turn in place: from the start of the buffer, back to the header state on the last byte |
| ConnContext.ConnCtx.TaskIoRead | src/main.c:434-467 | a read task is a read turn in a read state outside shutdown, and nothing otherwise |
| ConnContext.ConnCtx.TaskIoSend | src/main.c:469-502 | a send task is a write turn in the write state outside shutdown, and nothing otherwise |
| ConnContext.Converse | src/libs/net_io/netio.c:190-440 | a whole life of a context on a stream ends in the state, position, buffer and wire that the specification gives |
| Connection.MoreReceived | src/libs/net_io/netio.c:357-422 | any further bytes, at most those wanted, keep the reader's place: read plus to-read is 3, or 3 plus the declared length |
| Connection.LastSent | src/libs/net_io/netio.c:229-248 | the call that sends the last bytes completes the reply, and the wire got the reply itself exactly if nothing had been sent before |
| Connection.NextFrameFits | src/libs/net_io/netio.c:353-402 | if every declared length is at most 1021, what is buffered and wanted never passes the receive buffer |
| Connection.TurnKeeps | src/libs/net_io/netio.c:190-440 | every turn keeps the connection's invariant: place in the stream, replies equal to frames, sent plus to-send equal to 11 while writing |
| Connection.StateCycle | src/libs/net_io/netio.c:218-440 | the states cycle header, content, write, header; a turn may only stay or close besides |
| Connection.ClosedForGood | src/main.c:257-275 | over any turns: after closing nothing is read, sent or answered, and a hang-up closes whatever else happens |
| Resume.ReadShort | src/libs/net_io/netio.c:374-384 | a read short of what is wanted takes what its calls move; the state stays, after an error too, and only the end of the stream closes |
| Resume.ReadWhole | src/libs/net_io/netio.c:360-373 | the last byte of a header sets the big-endian length as what is wanted next; the last byte of a content hands it over and makes its reply |
| Resume.SendIs | src/libs/net_io/netio.c:218-262 | a send puts the first bytes of what is left on the wire, as many as its calls move, and leaves the connection open; with nothing left it reads again |
| Resume.IdleTask | src/main.c:446-491 | in any other state, and during shutdown, a task does nothing |
| Resume.ClosesExactly | src/libs/net_io/netio.c:381-384 | a turn closes an open connection exactly if it is a hang-up, or a read that meets the end of the stream with bytes wanted |
| Resume.ReadResumes | src/libs/net_io/netio.c:374-377 | a read that blocks stays open and is resumed: the two turns come to the one with the scripts joined |
| Resume.ReadResumesOften | src/libs/net_io/netio.c:346-440 | the same however often it blocks |
| Connection.ReaderAgreesWithSplit | src/libs/net_io/netio.c:302-440 | the frames handed over are a prefix of the split of the stream, the buffer begins the next frame, and no complete frame is held back except one without content |
| Connection.WireIsRepliesExactlyIfUnsplit | src/libs/net_io/netio.c:218-262 | eleven bytes per completed reply plus those of the one under way; between replies the wire is the replies in order exactly if each went out in one call |
| Connection.AnyRun | src/libs/net_io/netio.c:190-440 | all of this after any turns on any stream, with any chunks, interrupts and would-blocks |
| Connection.ChunkIndependence | src/libs/net_io/netio.c:302-440 | two runs that consumed the same bytes in whatever chunks handed over the same frames and buffer the same bytes |
| Connection.EveryFrameCanBeAnswered | src/libs/net_io/netio.c:190-440 | from every state of an open connection some turns answer every remaining frame; with no split reply before, the wire then is the replies to the frames of the stream |
| Connection.SplitReplyCorrupts | src/libs/net_io/netio.c:229-248 | for every frame and every way to send its reply in two pieces, a run that takes the reply for sent while the wire does not hold it |
| Connection.BufferSufficesExactly | src/libs/net_io/netio.c:353-402 | reads stay within the receive buffer in every run exactly if no length that the stream declares passes 1021 |
| EzQueue.Queue.Enqueue | src/libs/ezqueue/ezqueue.c:71-109 | appends to the sequence, growing a full buffer first; refuses exactly at the largest capacity or without memory, changing nothing |
| EzQueue.Queue.Dequeue | src/libs/ezqueue/ezqueue.c:111-143 | takes the first of the sequence, wraparound and the empty index included |
| EzQueue.Queue.Clear | src/libs/ezqueue/ezqueue.c:145-170 | hands out the whole sequence in order and leaves the queue empty |
| EzQueue.Queue.Resize | src/libs/ezqueue/ezqueue.c:172-226 | doubles, clamped at 65535; the sequence is unchanged and each item is copied once |
| EzQueue.FifoAndAmortisedCost | src/libs/ezqueue/ezqueue.c:71-226 | over any run: first in first out; all growth together copies fewer than twice as many items as were accepted; with memory an item is refused exactly at 65535 |
| EzQueue.CapacityBound | src/libs/ezqueue/ezqueue.c:184-200 | the capacity never passes twice the items that had to fit before the last growth |
| EzQueue.NewConnectionsCapacity | src/main.c:24 | so the queue of new connections, which starts at 16, never passes 2048 slots under the connection cap |
| Compaction.StableFilter | src/libs/ezarray/ezarray.c:149-160 | the j-th kept item comes from the j-th kept position, in order, none missed; the positions depend on the pattern alone |
| Compaction.CompactTwice | src/libs/ezarray/ezarray.c:139-168 | after a compaction by any test that takes the filler for empty, the test finds exactly the kept items, in front, and compacting again changes nothing |
| EzArray.CompactedOnce | src/libs/ezarray/ezarray.c:149-160 | the same for the array's own loop and test, against any sentinel |
| ConnTable.UsedCompactedOnce | src/libs/connmgr/connmgr.c:391-406 | the same for the loop over the poll entries and its test of the descriptor |
| ConnTable.CompactedTwice | src/libs/connmgr/connmgr.c:374-410 | removing closed connections a second time changes nothing in either array, aligned or not |
| EzArray.Arr.Push | src/libs/ezarray/ezarray.c:64-91 | writes behind the items, growing a full array first; refuses exactly at 65535 items or without memory |
| EzArray.Arr.Resize | src/libs/ezarray/ezarray.c:171-211 | keeps the old items; the new slots are whatever the memory holds |
| EzArray.Arr.SetAt | src/libs/ezarray/ezarray.c:93-114 | overwrites one item, and refuses outside the items |
| EzArray.Arr.CompactInPlace | src/libs/ezarray/ezarray.c:139-168 | the in-place loop computes the stable filter over the whole capacity and counts what it kept |
| ConnMgr.Manager.CompactPfds | src/libs/connmgr/connmgr.c:391-406 | the loop over the poll entries computes the same filter, by descriptor |
| ConnMgr.Manager.RemoveClosed | src/libs/connmgr/connmgr.c:374-410 | compacts both arrays and sets both counts |
| ConnMgr.Manager.AddToPollfd | src/libs/connmgr/connmgr.c:412-465 | puts the entry behind the active ones, growing a full array first; on failure nothing changes |
| ConnMgr.Manager.AddOne | src/libs/connmgr/connmgr.c:342-368 | moves the oldest waiting connection into both arrays; says what remains when either insertion fails |
| ConnMgr.Manager.AddNew | src/libs/connmgr/connmgr.c:321-372 | moves waiting connections in order until an insertion fails, with any memory, and says what is left when one does |
| ConnMgr.Manager.Update | src/libs/connmgr/connmgr.c:293-317 | drops the closed connections, then takes in the new ones, with any memory and any failure |
| ConnMgr.Manager.Sweep | src/main.c:126-182 | empties the slots of exactly the doomed connections in both arrays |
| ConnMgr.Manager.CreateConn | src/libs/connmgr/connmgr.c:174-266 | queues a new connection; fails without memory for its context or the queue; without memory for its buffers it reports success and queues nothing |
| ConnMgr.Manager.Accept | src/libs/net_io/netio.c:124-176 | queues arrivals in order, passing over those without buffers, until nobody waits, the cap is met, or a connection is reported as failed |
| ConnMgr.Manager.RunRound | src/main.c:123-219 | one round of sweep, update and accept computes the round of the specification and its report; a round that fails stops where the first failure is |
| ConnTable.SweepKeepsAligned | src/main.c:162-179 | a sweep keeps the two arrays aligned: same capacities and counts, a slot's context null exactly if its descriptor is 0, and otherwise the same descriptor |
| ConnTable.CompactKeepsAligned | src/libs/connmgr/connmgr.c:374-410 | compaction of both arrays keeps them aligned, leaves no hole, and keeps the survivors in order |
| ConnTable.AddKeepsAligned | src/libs/connmgr/connmgr.c:342-465 | an insertion keeps them aligned exactly if every grown slot behind it is empty in both arrays |
| ConnTable.AddedAllGood | src/libs/connmgr/connmgr.c:321-372 | taking in all new connections keeps the table aligned and dense and puts them behind the others in order, if they fit the arrays or new memory is empty |
| ConnTable.FailedAddAligned | src/libs/connmgr/connmgr.c:342-368 | a failed insertion keeps them aligned exactly if it failed in the context array; otherwise that array has grown alone and is one item ahead |
| TableRuns.GarbageBreaksAlignment | src/libs/ezarray/ezarray.c:197-207 | the first table of 16 grown onto memory that is not zero: the next compaction counts fifteen contexts nobody created |
| TableRuns.FullTableReached | src/main.c:109-219 | two rounds after its start, with fifteen clients, the server has its first table full and a connection waiting |
| TableRuns.GrowthOntoGarbage | src/libs/ezarray/ezarray.c:197-207 | from there an update that grows both arrays onto memory that is not zero reports success and leaves them unaligned |
| TableRuns.PollArrayCannotGrow | src/libs/connmgr/connmgr.c:342-450 | from there an update with memory for the context array alone fails and leaves 32 slots beside 16, and 17 items beside 16 |
| ConnTable.AcceptKeepsGood | src/libs/net_io/netio.c:134-163 | the accept loop queues the first n arrivals in order but for those without buffers; n falls short of all only at the cap or at an arrival reported as failed; 1025 is never passed |
| ConnTable.RoundLive | src/main.c:123-219 | after a round the live connections are the survivors in order, then those that were waiting in order; now waiting are the first arrivals but for those without buffers |
| ConnTable.RoundsKeepGood | src/main.c:123-219 | over any run of rounds: aligned, dense, at most 1025 connections, capacity at most 2048 |
| ConnTable.RoundsFromStart | src/main.c:109-219 | the same for every run from the table of 16 with the listener and the signal pipe waiting |
| ConnTable.NoGrowthIsSound | src/main.c:123-219 | a run whose connections fit the table it starts from needs no assumption about memory or allocations, and grows nothing |
| ConnTable.SmallServerAligned | src/main.c:109-219 | a server that accepts at most fourteen clients keeps its tables aligned with no such assumption |

## Left out

- Sockets, `poll`, `accept` and `close`: a socket is a byte stream with a finite script of call results, `poll` and the arrival of connections are arbitrary choices. A script that has run out would block, so endless interrupts are not modelled.
- The listener and the signal pipe report input only; hang-up and output events on them are not part of this model.
- Failures of mutex, condition and thread calls, and the cleanup ladders for partial initialisation.
- The signal thread and the signal mask: stopping is an arbitrary choice in the loop, and the shutdown flag a parameter of a task.
- Everything after the steady loop, apart from what the wait guarantees: the error exits free contexts before the pool has stopped (`src/main.c:315-319`), so the lifetime theorems speak of the loop.
- The unlocked read of the queue size in wait (`src/libs/concurinc/src/concurinc.c:208`) is one atomic step; the memory model of C is not part of this model.
- Task bodies in the pool are one step under the context mutex; that they end is assumed.
- In submit a failed allocation is seen under the queue mutex, although the one of the task itself comes before the lock; nothing but the failure is observable from either.
- Big-endian hosts; the 16-bit writes and the partial copy of the header follow little-endian layout.
- Text and logging, and the strings of error replies beyond their eleven bytes.
- RoundsFromStart: speaks of rounds in which no insertion fails, arrays that grow get empty memory (`GrownSlotsEmpty`) and descriptors are positive, because descriptor 0 marks an empty poll entry; what other memory and failures do is stated by `AddKeepsAligned` and `FailedAddAligned`.
- RoundsKeepGood: the same assumptions.
- RoundLive: the same assumptions for its one round.
- RunRound: takes the counts of both arrays to agree after the sweep is compacted, which is what alignment means for them; where they differ the code writes both arrays at different places.
- Update: the same.
- AddOne: takes both counts and both capacities to agree before an insertion; where they differ the code writes both arrays at different places.
- AddNew: the same.
- Sweep: the same, before a sweep.
- SweepAndUpdateRefine: takes the insertions to succeed and arrays that grow to get empty memory, as `RoundLive` does.
- DestroyedExactlyIfNotLeaked: says that a continuation exists; that it is taken is not claimed. The pool must be open and have a worker, which it has in every state the server reaches (`ClosedConnectionsGoExactly`).
- ServerAnswersEveryFrame: says that a continuation exists, and takes the receive buffer to hold every frame, which it does exactly under `BufferSufficesExactly`. With a hang-up due in the round under way it depends on the workers how much is still answered before the mark; what holds from the mark on is `LostKeepsAnswers`.
- AnsweredExactly: the same.
- ReachedClientsCanBeAnswered: the same.
- ClientGetsItsAnswers: the same.
- ReportServed: speaks of rounds in which every allocation and call of the main thread succeeds; what a failed submit leaves is stated by `SubmitMovesRefs` and `LoopEndsExactly`.
- EverySlotIsServed: the same.
- WaitCanReturn: says that a run exists; a caller may spin meanwhile, as `WaitSpins` shows.
- Converse: takes every declared length to be at most 1021, because the code has no strategy for longer messages (`README.md:9` of the repository); `BufferSufficesExactly` shows that this is exactly what the buffer needs.
- TaskIoRead: takes what is wanted next to fit the receive buffer; the code does not check it.
- HandleDataIn: the same.
- TakeContent: the same, for the declared content.
- WaitPromiseExact: takes destroy not to have been called, as the interface demands while wait runs (`src/libs/concurinc/src/concurinc.c:178-180`), and at least one worker, as initialisation does (`:105`).
- EveryTaskCanFinish: says that a run exists; that the scheduler takes it is not claimed, and a client that waits may spin meanwhile.
- DestroyCanFinish: the same; task bodies are assumed to end.
- DestroyDiscardsTheRest: takes no call into the pool to be under way when the pool is torn down, as the interface demands of its callers.
