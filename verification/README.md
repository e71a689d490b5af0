# Verification of the kkp coroutine runtime and TLS stream

A Dafny model of the two state machines at the centre of `kkp-core`, with proofs that range over every
run of them. `dafny verify dfyconfig.toml` checks all of it.

**The coroutine runtime over io_uring.** Coroutine bodies are arbitrary strategies: a function from everything a
body has received to what it does next (`Programs.dfy`), so a body may branch on results, catch exceptions or
loop for ever. `Runtime.dfy` is the transition system: frames with their promise fields, the native stack of
nested `resume()` calls, the submission queue of 1024 entries, operations in flight, completions, and `running_`.
Task variables hold handles and can be moved, assigned over, dropped, launched and awaited. The environment chooses
every completion order, every result, how much of the queue each submit takes, and every failed wait. Whatever
would be undefined behaviour in C++ (a resume of a running or destroyed frame, a second destroy, reading an empty
optional, a completion that points into a frame that is not waiting for it, a null submission entry) is an
explicit `Fault`. `RuntimeInvariant.dfy` states one inductive invariant, `RuntimeFrames`, `RuntimeSafety` and
`RuntimeHistory` prove that every step keeps it, and `RuntimeTheorems`, `RuntimeLifetime`, `RuntimeHangs` and
`RuntimeFlood` draw the consequences. `RuntimeEffects.dfy` says of each event which frame is where after it, what it
has received and what stayed; `RuntimeFate.dfy` says which tasks are destroyed, over any run; `Costs.dfy` and
`RuntimeProgress.dfy` prove that runs come to an end. `IoContext.dfy` is the imperative form: a class that updates
its fields in place, without any of the checks, and whose methods are proved equal to the checked operations.
`RuntimeLoop.dfy` says what its loop must have done with what the kernel and the coroutines offered, in which order.

**The TLS stream.** `Records.dfy` is a small record layer framed as in section 5.1 of RFC 8446.
`TlsEngine.dfy` is the engine between two byte queues: a handshake that follows a script of flights, then
records; it may answer a control record while reading. `SslStream.dfy` holds the classes: a raw stream that takes
and gives as little as it likes, the engine wrapper, and `ssl_stream` with its three nested pumps.
`HandshakePeers.dfy` joins two handshakes by byte channels, and `StreamHistory.dfy` proves what holds over
histories of calls and from one end of a connection to the other. Every run of the method `Handshake` is
a run of the machine that the two-peer proof is about.

What the runtime asks of its clients, stated as `Runtime.Disciplined`: one context; a frame awaits only tasks it
created; a task variable is named only once it is declared, and awaited or launched only while it holds a handle;
only a task that has not started is launched; no task is destroyed while it is running. An I/O awaiter is awaited where it is built, by construction.
A wait returns either the head completion, or an error without a completion.

## What does not hold

- A run can fault. `io_context::finish` does not check the entry it gets from `io_uring_get_sqe`, and entries stay
  queued when `io_uring_submit` does not take them, because its result is ignored.
  `RuntimeTheorems.FaultsOnlyWithoutEntry` is the exact condition for a step to fault, `Runtime.NoEntryForMarker` is
  the guard a caller could check, and `RuntimeFlood.SomeRunFaults` builds a run that gets there. The theorems below
  about runs are about runs in which that step is not taken (`Runtime.Allowed`).
- A wakeup can be lost: one failed submit leaves the root's only operation in the queue, and `run` waits for ever
  (`RuntimeHangs.LostWakeup`). So can the shutdown: the root has ended, and its marker stays in the queue
  (`RuntimeHangs.LostShutdown`). An operation that is awaited, or a marker that is due, is in flight or completed
  exactly when it has left the submission queue (`RuntimeTheorems.NoLostWakeup`, `RuntimeTheorems.ShutdownExact`);
  `run` can still dispatch something exactly when some outstanding entry has
  (`RuntimeHangs.WaitsForEverOrDispatches`); and it never hangs if no submit fails (`RuntimeHangs.SubmitsNeverHang`).
- A zero from `recv` does not mean the end of the stream: it also comes back for part of a record
  (`StreamHistory.ZeroBeforeEnd`; `StreamHistory.ZeroMeansPartial` says exactly when).
- A `send` drops the part of the current chunk that was not accepted when the raw stream answers zero or less, and
  exactly then (`SslStreams.SslStream.Send`). The wire holds everything that was drained exactly as long as that has
  not happened (`StreamHistory.HealthExact`), and after it a
  later send that succeeds does not repair the wire (`StreamHistory.LostOnTheWire`). The order of bytes on the wire is
  therefore stated up to and including the first failing send.
- `flag::set_sub_job` with `false` masks with the bit itself: it clears every other bit and keeps the one it should
  clear (`CoroFlags.SubJobExact`, `CoroFlags.SubJobWrong`). The scheduler does not use it.

## Model

| member | source | states |
|---|---|---|
| RuntimeTheorems.RunsNeverFault | kkp/kkp-core/include/kkp/coro/task.hpp:53-107 | over every run from the start, with any completion order, failed submits and failed waits, no resume hits an active, finished or destroyed frame, no handle is destroyed twice or read after destruction, no value is read before there is one, and no completion points into a frame that does not wait for it |
| RuntimeTheorems.FaultsOnlyWithoutEntry | kkp/kkp-core/include/kkp/io_context.hpp:50-58 | in a state that satisfies the invariant, a step that keeps the client discipline faults if and only if the root of a run ends while the submission queue is full |
| RuntimeFlood.SomeRunFaults | kkp/kkp-core/include/kkp/io_context.hpp:50-58 | such a step is reachable: a root whose detached tasks fill the queue through failed submits |
| RuntimeTheorems.DirectStyle | kkp/kkp-core/include/kkp/coro/task.hpp:53-80 | every task that has ended holds exactly one of a value or an exception, the one a plain recursive evaluator gives on the same I/O results |
| RuntimeTheorems.SameTask | kkp/kkp-core/include/kkp/coro/task.hpp:85-107 | two states of any two runs that start the same root body and do not disagree about an I/O result give a task of the same name the same body and compatible inputs |
| RuntimeTheorems.CompletionOrderIrrelevant | kkp/kkp-core/include/kkp/uring/uring_loop.hpp:19-65 | two runs that end the same task with the same I/O results end it with the same value or exception, whatever the order of completions |
| RuntimeTheorems.NoLostWakeup | kkp/kkp-core/include/kkp/coro/task.hpp:94-107 | whenever no coroutine runs, the await links of every unfinished task end in a frame that waits for an I/O operation; that operation is outstanding exactly once, and it is in flight or completed if and only if it has left the submission queue |
| RuntimeTheorems.SubmittedAll | kkp/kkp-core/include/kkp/uring/base_uring_awaiter.hpp:33-40 | if no submit fails nothing stays in the submission queue, over any run, so each such operation is in flight or completed |
| RuntimeHangs.HungForEver | kkp/kkp-core/include/kkp/uring/uring_loop.hpp:25-46 | once `run` waits with nothing in flight and nothing completed, no continuation changes anything |
| RuntimeHangs.WaitsForEverOrDispatches | kkp/kkp-core/include/kkp/uring/uring_loop.hpp:25-46 | while `run` waits, some continuation dispatches a completion if and only if it is not hung, that is, if and only if some outstanding entry has left the submission queue |
| RuntimeHangs.HungMeansQueued | kkp/kkp-core/include/kkp/uring/base_uring_awaiter.hpp:33-40 | in a hung run every awaited operation, and the marker if it is due, is still in the submission queue, and there is at least one |
| RuntimeHangs.SubmitsNeverHang | kkp/kkp-core/include/kkp/uring/base_uring_awaiter.hpp:33-40 | a run in which no submit fails never hangs |
| RuntimeHangs.LostWakeup | kkp/kkp-core/include/kkp/uring/base_uring_awaiter.hpp:33-40 | a run that hangs with its root unfinished: the submit of its only operation fails |
| RuntimeHangs.LostShutdown | kkp/kkp-core/include/kkp/io_context.hpp:50-58 | a run that hangs with its root ended: the submit of its marker fails |
| RuntimeProgress.RunFinishes | kkp/kkp-core/include/kkp/io_context.hpp:22-27 | a `block_run`, in any idle context that a run has reached, whose body ends in direct style on given I/O results, with every task that it starts and all that earlier runs left: if submits and waits work, then in any order of completions the run takes a bounded number of steps, has a next step until it is over (only the discipline of a body can forbid it), ends with the root holding what the direct-style evaluator gives, and leaves such a context again |
| RuntimeProgress.DetachedFinishes | kkp/kkp-core/include/kkp/io_context.hpp:44-48 | a `launch_detached` by the main thread, under the same conditions: a bounded number of steps, a next step until it has returned, and then its task has ended or is suspended |
| RuntimeProgress.StepLowers | kkp/kkp-core/include/kkp/coro/task.hpp:53-107 | every step of such a run lowers what is left to do, over actions, operations in flight, completions and calls that have to return |
| RuntimeProgress.NextMove | kkp/kkp-core/include/kkp/uring/uring_loop.hpp:25-46 | in every state of such a run that is not over, some step is on offer |
| Costs.CostAt | kkp/kkp-core/include/kkp/coro/task.hpp:136-195 | each action that a body takes pays one of its cost and passes on the cost of the task that it starts or awaits |
| RuntimeTheorems.LinksConsistent | kkp/kkp-core/include/kkp/coro/task.hpp:94-107 | in every reachable state `caller_` and the suspended await point at each other, no task has two awaiting frames, and the native stack holds running frames only, each once |
| RuntimeTheorems.ContextNeverNull | kkp/kkp-core/include/kkp/coro/task.hpp:26-42 | every await of `this_context`, in a root, a launched task or at any depth of awaits, received the context |
| RuntimeTheorems.ShutdownExact | kkp/kkp-core/include/kkp/io_context.hpp:22-27 | markers queued, in flight, completed or taken are exactly one for each `block_run` whose root has ended; between runs each has been taken; one that is due is in flight or completed if and only if it has left the submission queue |
| RuntimeTheorems.StopsOnMarkerOnly | kkp/kkp-core/include/kkp/uring/uring_loop.hpp:25-59 | `run` returns exactly when the completion in hand is the marker; its root has then ended, that completion is the last one seen, and what completed later stays in the ring |
| RuntimeTheorems.DispatchExact | kkp/kkp-core/include/kkp/uring/uring_loop.hpp:49-65 | taking a completion resumes exactly the frame that submitted the operation, for the first time, with that completion's result; no other frame changes |
| RuntimeTheorems.HandledOnce | kkp/kkp-core/include/kkp/uring/uring_loop.hpp:25-65 | no operation is handled twice, the frame received the result of the completion handled for it, and nothing of it is outstanding |
| RuntimeTheorems.RecordedOnce | kkp/kkp-core/include/kkp/uring/uring_loop.hpp:49-65 | conversely every result that a frame received is the one given when there was no entry, or that of exactly one handled completion |
| RuntimeTheorems.CompletionsInOrder | kkp/kkp-core/include/kkp/uring/uring_loop.hpp:40-44 | over any run, what has been seen followed by what is in the ring gains exactly what the kernel posted, with its results, in that order: none skipped, none twice |
| RuntimeTheorems.AdvanceLeavesLoop | kkp/kkp-core/include/kkp/io_context.hpp:22-48 | nothing a coroutine does changes `running_`, the completion queue, or what has been seen |
| RuntimeLifetime.OutcomesSettle | kkp/kkp-core/include/kkp/coro/task.hpp:71-79 | over any step of any run an outcome once stored does not change, a finished frame can only be destroyed, a destroyed frame is never touched, and no variable gains the handle of a frame that existed before |
| Programs.EachFrameAccounted | kkp/kkp-core/include/kkp/coro/task.hpp:244-272 | whatever a body moves, assigns over, drops, launches and awaits: each frame it has created is in exactly one variable, or was destroyed with its variable or assigned over, or was detached or moved into an await; exactly one of these, and no other frame is in any |
| Programs.MovesTransfer | kkp/kkp-core/include/kkp/coro/task.hpp:246-256 | after a move construction, a move assignment or a launch the target holds exactly what the source held and the source holds nothing; a move assignment to itself changes nothing; no other variable changes |
| Programs.OthersSet | kkp/kkp-core/include/kkp/coro/task.hpp:258-272 | every other action sets at most the one variable that it names: a creation to the new frame, a destructor, a detach or an await by move to nothing |
| Programs.OneHolder | kkp/kkp-core/include/kkp/coro/task.hpp:244-272 | hence no frame is held twice, and none that was given up is held |
| RuntimeLifetime.OneOwner | kkp/kkp-core/include/kkp/coro/task.hpp:244-272 | in every reachable state each handle is in one task variable at most, of the frame that created it, and its frame is not destroyed; a handle that was destroyed with its variable, assigned over, detached or moved into an await is in none |
| RuntimeLifetime.NeverHeldAgain | kkp/kkp-core/include/kkp/coro/task.hpp:269-272 | over any run a frame that no variable holds is never held again |
| RuntimeLifetime.DestroyedOnce | kkp/kkp-core/include/kkp/coro/task.hpp:248-262 | over any run every frame is destroyed at most once |
| RuntimeFate.DestroyedExactly | kkp/kkp-core/include/kkp/coro/task.hpp:248-262 | in every reachable state a task is destroyed if and only if its creator destroyed the variable that held it or assigned over it, or its body is over and the task was still in one of its variables; one that was detached or moved into an await never is; the root of a run is destroyed if and only if its body is over |
| RuntimeEffects.DetachedStarts | kkp/kkp-core/include/kkp/io_context.hpp:44-48 | `launch_detached` by the main thread: a new root frame with that body and no history runs at once, alone on the native stack, as an attached daemon; nothing else changes |
| RuntimeEffects.RootStarts | kkp/kkp-core/include/kkp/io_context.hpp:22-27 | `block_run`: the same with a root that is no daemon, and one run more |
| RuntimeEffects.RootsAreStarts | kkp/kkp-core/include/kkp/io_context.hpp:22-48 | over any run the roots are as many as the calls of `block_run` and `launch_detached` that were taken, and the frame of each, in that order, exists with its own body and has started |
| RuntimeEffects.LaunchEffect | kkp/kkp-core/include/kkp/io_context.hpp:35-48 | a launched task runs at once, unchanged in its body, as an attached daemon in a nested call; `launch` hands its handle to a new variable and `launch_detached` to none; nothing else changes |
| RuntimeEffects.AwaitEffect | kkp/kkp-core/include/kkp/coro/task.hpp:85-107 | a finished task answers at once with its own outcome; a daemon gets the awaiting frame as caller and control returns to the resumer; any other task takes over the resume of its caller and runs; nothing else changes |
| RuntimeEffects.CreateEffect | kkp/kkp-core/include/kkp/coro/task.hpp:244-244 | a new task is a frame that has not started, held by a new variable; nothing else changes |
| RuntimeEffects.MoveConstructEffect | kkp/kkp-core/include/kkp/coro/task.hpp:246-246 | a move construction hands the handle over and destroys nothing |
| RuntimeEffects.MoveAssignEffect | kkp/kkp-core/include/kkp/coro/task.hpp:248-256 | a move assignment hands the handle over and destroys exactly the frame that the target held, if any and if it is not a move to itself |
| RuntimeEffects.DropEffect | kkp/kkp-core/include/kkp/coro/task.hpp:258-262 | the destructor destroys exactly the frame its variable held, if any |
| RuntimeEffects.IoEffect | kkp/kkp-core/include/kkp/uring/base_uring_awaiter.hpp:14-40 | an awaited operation suspends its frame and returns to the resumer; its entry goes to the back of the queue, and the kernel takes as many entries from the front as it accepts |
| RuntimeEffects.NoEntryEffect | kkp/kkp-core/include/kkp/uring/base_uring_awaiter.hpp:16-35 | with a full queue the frame receives a negative result at once and goes on; nothing is queued and nothing else changes |
| RuntimeEffects.EndToCallerEffect | kkp/kkp-core/include/kkp/coro/task.hpp:53-59 | the end of a task with a caller: its outcome is stored, the tasks in its variables are destroyed, and the caller takes over the resume with that outcome |
| RuntimeEffects.EndOfDaemonEffect | kkp/kkp-core/include/kkp/coro/task.hpp:71-73 | the end of a daemon without a caller: its outcome is stored, the frame stays, and control returns to the resumer |
| RuntimeEffects.EndOfRootEffect | kkp/kkp-core/include/kkp/coro/task.hpp:74-79 | the end of the root of a run: its frame is destroyed, and one marker goes to the back of the submission queue |
| RuntimeEffects.DisciplineNeeded | kkp/kkp-core/include/kkp/coro/task.hpp:85-107 | the client discipline is no stronger than it must be: in a state that satisfies the invariant, a step outside it faults, except that it launches a task that waits for an operation or assigns to a variable before it is declared |
| RuntimeHistory.StepKeeps | kkp/kkp-core/include/kkp/coro/task.hpp:53-107 | every allowed step succeeds and keeps the invariant of frames, links, ring, histories and phase |
| Programs.EvaluateMonotone | kkp/kkp-core/include/kkp/coro/task.hpp:136-170 | the direct-style evaluator never changes an answer when it is given more I/O results or more depth |
| Programs.YieldsUnique | kkp/kkp-core/include/kkp/coro/task.hpp:136-195 | a body has at most one outcome on I/O results that do not conflict |
| Programs.FaithfulYields | kkp/kkp-core/include/kkp/coro/task.hpp:136-195 | a body that was given direct-style inputs up to its end ends as the direct-style run does |
| IoContexts.IoContext.constructor | kkp/kkp-core/include/kkp/io_context.hpp:14-16 | the empty initial state, which satisfies the invariant |
| IoContexts.IoContext.FinishRun | kkp/kkp-core/include/kkp/io_context.hpp:50-58 | whatever the submit accepts, exactly one marker more is outstanding and no other entry is lost or doubled |
| IoContexts.IoContext.StartBlockRun | kkp/kkp-core/include/kkp/io_context.hpp:22-27 | sets context and flag, takes the handle and resumes it, as in the transition system; the invariant is kept |
| IoContexts.IoContext.StartDetachedTask | kkp/kkp-core/include/kkp/io_context.hpp:44-48 | sets context and flag, takes the handle and resumes it, as in the transition system; the invariant is kept |
| IoContexts.IoContext.LaunchTask | kkp/kkp-core/include/kkp/io_context.hpp:35-48 | field by field the checked launch, whose effect `RuntimeEffects.LaunchEffect` states; it cannot fault |
| IoContexts.IoContext.AwaitOperation | kkp/kkp-core/include/kkp/uring/base_uring_awaiter.hpp:14-40 | field by field the checked I/O await, with -10086 answered at once when there is no entry |
| IoContexts.IoContext.AwaitTaskVariable | kkp/kkp-core/include/kkp/coro/task.hpp:85-107 | field by field the checked task await: `await_ready`, then the daemon or the transfer branch, with no fault |
| IoContexts.IoContext.FinalAwait | kkp/kkp-core/include/kkp/coro/task.hpp:53-80 | field by field the checked final suspension: caller, daemon, or marker and destroy |
| IoContexts.IoContext.DestroyLocals | kkp/kkp-core/include/kkp/coro/task.hpp:258-262 | destroying the task variables one by one, in any order, finds each frame alive and destroys exactly the frames they hold |
| IoContexts.IoContext.EndBody | kkp/kkp-core/include/kkp/coro/task.hpp:136-144 | the end of a body and its final suspension are one checked step, without a fault, and keep the invariant |
| IoContexts.IoContext.LeaveBody | kkp/kkp-core/include/kkp/coro/task.hpp:136-138 | storing a value before the locals go, or an exception after they have gone, leads to the same state |
| IoContexts.IoContext.MoveAssignTask | kkp/kkp-core/include/kkp/coro/task.hpp:248-256 | destroy, then exchange, unless both are the same variable, is the checked move assignment, whose effect `RuntimeEffects.MoveAssignEffect` states; it cannot fault |
| IoContexts.IoContext.DropTask | kkp/kkp-core/include/kkp/coro/task.hpp:258-262 | the destructor of a task variable is the checked destroy, without a fault |
| IoContexts.IoContext.ResumeHead | kkp/kkp-core/include/kkp/uring/uring_loop.hpp:49-65 | the unchecked walk through user data and stored handle does exactly the checked dispatch |
| IoContexts.IoContext.MarkSeen | kkp/kkp-core/include/kkp/uring/uring_loop.hpp:42-44 | the head completion leaves the ring after its dispatch, and the loop goes on or stops by `running_` |
| IoContexts.IoContext.RunCoroutines | kkp/kkp-core/include/kkp/uring/uring_loop.hpp:63-63 | between a resume and its return every coroutine action and every completion offered is taken if it is allowed at its turn, and nothing else happens; it ends when the outermost resume has returned, or with the offers |
| IoContexts.IoContext.Run | kkp/kkp-core/include/kkp/uring/uring_loop.hpp:19-46 | the run of the loop is exactly the one that takes each offered choice that is allowed at its turn, and returns when nothing is left to resume; the invariant is kept; if it stops, the marker was its last completion and markers seen equal runs started |
| RuntimeLoop.TakenIfAllowed | kkp/kkp-core/include/kkp/uring/uring_loop.hpp:25-46 | in that run each choice offered is taken if and only if it is allowed in the state reached at its turn and the run is not over |
| RuntimeLoop.WaitHandled | kkp/kkp-core/include/kkp/uring/uring_loop.hpp:25-65 | each wait offered while a completion is at hand handles it: what has been handled gains that completion next, and the frame of the operation has received its result |
| CoroFlags.FlagWord.SetDaemon | kkp/kkp-core/include/kkp/coro/coro_base.hpp:28-38 | the daemon bit becomes the value, and every other bit stays |
| CoroFlags.DaemonAsSet | kkp/kkp-core/include/kkp/coro/coro_base.hpp:28-38 | after any sequence of settings the flag reads as it was last set, and every other bit is untouched |
| CoroFlags.SubJobExact | kkp/kkp-core/include/kkp/coro/coro_base.hpp:44-50 | setting the sub-job bit is right, for that bit and the others, exactly when the bit is to be set or the word is empty |
| CoroFlags.SubJobWrong | kkp/kkp-core/include/kkp/coro/coro_base.hpp:44-50 | a word on which it is wrong |
| Records.ParseEncoded | kkp/kkp-core/include/kkp/ssl/ssl_engine.hpp:116-119 | reading an encoded record back gives its kind and payload, and leaves exactly what follows |
| Records.PlainSplit | kkp/kkp-core/include/kkp/ssl/ssl_engine.hpp:116-119 | the data in a stream of records does not depend on where the stream was cut |
| Records.FragmentsCarry | kkp/kkp-core/include/kkp/ssl/ssl_engine.hpp:121-124 | cutting data into records of at most 2^14 bytes loses nothing: they are whole and carry the data in order |
| Records.FirstDataLeads | kkp/kkp-core/include/kkp/ssl/ssl_engine.hpp:116-119 | the next record that carries data is the front of all the data, and there is one exactly when there is data |
| TlsEngine.SslReadKeeps | kkp/kkp-core/include/kkp/ssl/ssl_engine.hpp:116-119 | a read loses no fed byte, conserves the data still to come for every future input, and emits nothing that carries data |
| TlsEngine.SslReadGives | kkp/kkp-core/include/kkp/ssl/ssl_engine.hpp:116-119 | a read gives data, with status ok, exactly when the engine is live and holds some; then it gives all of the record in hand, or as much of it as was asked for, and keeps the rest; otherwise it has used every complete record and wants input, or has failed on a malformed one |
| TlsEngine.SslWriteKeeps | kkp/kkp-core/include/kkp/ssl/ssl_engine.hpp:121-124 | a write takes a prefix of the data, all of it unless it stops after one full record, and emits whole records that carry exactly that prefix; it fails exactly on an engine that is not established |
| TlsEngine.NegotiateKeeps | kkp/kkp-core/include/kkp/ssl/ssl_engine.hpp:70-106 | a handshake operation loses no input, only adds output, succeeds exactly when established, and on failure leaves the alert last in the output |
| TlsEngine.NegotiateOnScript | kkp/kkp-core/include/kkp/ssl/ssl_engine.hpp:70-106 | unless the input contradicts the script, the engine has emitted exactly its own flights so far and consumed exactly those of the peer |
| HandshakePeers.NeverMismatched | kkp/kkp-core/include/kkp/ssl/ssl_stream.hpp:76-97 | input that comes from a peer on the same script is never mistaken for a wrong flight |
| HandshakePeers.MoveKeeps | kkp/kkp-core/include/kkp/ssl/ssl_stream.hpp:50-122 | every move of two connected handshakes loses, reorders and invents no byte; a peer waits for input only with empty output |
| HandshakePeers.SomeoneMoves | kkp/kkp-core/include/kkp/ssl/ssl_stream.hpp:76-120 | two connected handshakes never deadlock |
| HandshakePeers.MoveDecreases | kkp/kkp-core/include/kkp/ssl/ssl_stream.hpp:108-117 | every move lowers a measure of bytes to drain, to send and to receive |
| HandshakePeers.HandshakeCompletes | kkp/kkp-core/include/kkp/ssl/ssl_stream.hpp:38-124 | for every script and any partial sends and receives, runs are bounded by the script, some peer can always move until both are over, neither fails, and at the end each was fed exactly the other's flights and nothing is left over |
| HandshakePeers.TraceEnds | kkp/kkp-core/include/kkp/ssl/ssl_stream.hpp:76-120 | every run of the handshake machine that is over ended as its result says, on the end of the input, on the raw failure that it names, or on the answer of the engine, and nothing before was a failure or an end |
| TlsEngine.PerformExact | kkp/kkp-core/include/kkp/ssl/ssl_engine.hpp:70-106 | the answer of `perform` says exactly where the engine stands: want_write if and only if output is pending; otherwise ok if and only if established, want_read if and only if the next flight has not all come in, error if and only if dead |
| SslStreams.SslEngine.SslRead | kkp/kkp-core/include/kkp/ssl/ssl_engine.hpp:116-119 | writes exactly the bytes read to its place in the buffer, and leaves what is before it |
| SslStreams.SslEngine.Read | kkp/kkp-core/include/kkp/ssl/ssl_engine.hpp:112-114 | takes bytes from the front of the output queue, in order, and fails only on an empty queue |
| SslStreams.SslStream.constructor | kkp/kkp-core/include/kkp/ssl/ssl_stream.hpp:13-18 | nothing is left over at the start |
| SslStreams.SslStream.Handshake | kkp/kkp-core/include/kkp/ssl/ssl_stream.hpp:38-124 | success and engine failure are reported only with all output sent in order, the alert of a failure last; end of input is reported if and only if the last thing that happened is a receive that answered 0, a raw failure if and only if the last answer of the raw stream is that negative code, and no earlier answer was a failure or an end; after success everything read beyond the peer's flights is in the input queue; the run, with every raw result in it, is one of the machine of the two-peer proof |
| SslStreams.SslStream.FlushChunk | kkp/kkp-core/include/kkp/ssl/ssl_stream.hpp:108-117 | a chunk goes out in order and whole, unless the raw stream fails, and then a prefix of it |
| SslStreams.SslStream.Send | kkp/kkp-core/include/kkp/ssl/ssl_stream.hpp:127-163 | terminates; on success returns the full length with all output sent and the records emitted carrying exactly the buffer; otherwise it stopped at the first raw result of zero or less, and returns that; bytes are lost if and only if the raw stream answered zero or less; throws exactly on an engine that is not established; what reached the wire is in order |
| SslStreams.SslStream.PushChunk | kkp/kkp-core/include/kkp/ssl/ssl_stream.hpp:152-159 | a chunk goes out in order and whole, or a proper prefix of it up to the first raw result of zero or less |
| SslStreams.SslStream.Recv | kkp/kkp-core/include/kkp/ssl/ssl_stream.hpp:165-232 | for every future input the data still to come is what this call delivers and what remains; it delivers the record in hand, or as much of it as the buffer holds, and writes nothing behind it; it asks the raw stream exactly when the engine has no data, once, for as much as the buffer holds; the branch that fills the leftover buffer is never taken |
| SslStreams.SslStream.ReadLeftover | kkp/kkp-core/include/kkp/ssl/ssl_stream.hpp:259-267 | moves a prefix of what is left over into the buffer, and changes nothing else in it |
| SslStreams.SslStream.ClearLeft | kkp/kkp-core/include/kkp/ssl/ssl_stream.hpp:234-238 | returns 0 in every reachable state |
| StreamHistory.WireCarriesOffered | kkp/kkp-core/include/kkp/ssl/ssl_stream.hpp:127-163 | over any history of sends and receives, up to and including the first failing send, the wire carries a prefix of the plaintext offered; if none failed, exactly that, in whole records |
| StreamHistory.WireOrder | kkp/kkp-core/include/kkp/ssl/ssl_stream.hpp:139-160 | up to and including the first failing send the raw stream accepted a prefix of everything the engine emitted; after a successful send of data, all of it |
| StreamHistory.HealthExact | kkp/kkp-core/include/kkp/ssl/ssl_stream.hpp:152-159 | over any history everything drained from the engine was accepted if and only if no send of data was ended by the raw stream |
| StreamHistory.LostOnTheWire | kkp/kkp-core/include/kkp/ssl/ssl_stream.hpp:152-159 | a history with a failing send and a successful one after it, both derived from the engine's own write and drain, in which the wire is not a prefix of what the engine emitted |
| StreamHistory.ReceiverConserves | kkp/kkp-core/include/kkp/ssl/ssl_stream.hpp:165-232 | over any history, data delivered and data still to be delivered add up to what the input contains |
| StreamHistory.EndToEnd | kkp/kkp-core/include/kkp/ssl/ssl_stream.hpp:127-232 | under any chunking and buffer sizes one end delivers a prefix of the plaintext offered at the other; if no send failed and all has arrived, all of it exactly when nothing deliverable is left |
| StreamHistory.WholeConnection | kkp/kkp-core/include/kkp/ssl/ssl_stream.hpp:38-232 | the same from before the handshakes of both ends, application bytes that came in with the last flight included |
| StreamHistory.HonestWireNeverFails | kkp/kkp-core/include/kkp/ssl/ssl_stream.hpp:194-231 | a receiver fed what the raw stream of a sender accepted stays live, and a negative result means that the raw stream was asked and gave nothing |
| StreamHistory.NeverWaitsForNothing | kkp/kkp-core/include/kkp/ssl/ssl_stream.hpp:165-177 | anywhere in a history, `recv` on a live engine asks the raw stream exactly when the engine holds no data |
| StreamHistory.ProductiveCallsBounded | kkp/kkp-core/include/kkp/ssl/ssl_stream.hpp:171-231 | every receive that delivered or took something brings the end nearer, so their number is bounded by the bytes to come |
| StreamHistory.ZeroMeansPartial | kkp/kkp-core/include/kkp/ssl/ssl_stream.hpp:194-231 | a receive that took input on a live engine returns 0 exactly when that input completed no data |
| StreamHistory.ZeroBeforeEnd | kkp/kkp-core/include/kkp/ssl/ssl_stream.hpp:204-206 | a stream on which `recv` returns 0 although data is still to come |

## Left out

- OpenSSL itself: cryptography, certificates, the error queue and `errno`; records are framed and not encrypted, a handshake is a script of byte flights, and the only alert is the one of a handshake or record failure (no close_notify).
- The handshake that `SSL_read` and `SSL_write` start by themselves on an engine that is not established: the model fails those calls.
- Application data that is already in flight while two peers still run the handshake: `HandshakePeers.HandshakeCompletes` is about the handshake alone.
- A raw send that returns 0 inside `handshake`: the loop tries again, as the source does, and terminates because the modelled raw stream answers finitely often; in the two-peer model a raw send takes at least one byte.
- The body of the branch of `recv` that fills the leftover buffer: it is proved unreachable and given no meaning.
- `ssl_engine` moves and freeing, `ssl_stream` moves, `is_alive`, `close`; narrowing of `size_t` to `int`.
- What the wire carries after a `send` has failed, beyond `StreamHistory.HealthExact`; and the same loss when a raw send fails inside `handshake`.
- One object for each promise: frames are values in a map field of one class, linked by their names, so the handles in promises and tasks are names and not object references. `co_return` of a type with a throwing move, and the moved-from state of a value, are left out; values and exceptions are integers.
- Moving a task into another frame, as an argument or a capture: a frame awaits and owns only tasks that it created.
- That every frame is freed: a frame moved into an rvalue await and a detached frame are never destroyed, which is what the source does and `RuntimeFate.DestroyedExactly` states.
- The thread pool, threads, several contexts, a nested `block_run`, and a task that the main thread keeps from `launch`.
- The `-ETIME` branch of the loop: a wait that fails has no completion.
- Memory shared between coroutines: a body depends on what it received, not on variables of other bodies.
- Individual io_uring operations, sockets, files, DNS, the HTTP module, logging and error text: they add only easy members.
