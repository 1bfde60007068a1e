# fsocket in Dafny

fsocket is a small message socket. Four worker event loops own the connections; user threads
call `fsock_send`, `fsock_sendc` and `fsock_get_event`. The two sides meet in intrusive queues,
slot arrays, flags and counters, under one mutex per root socket, connection and worker. This
project models those shared structures and the protocol that runs over them, as the code has
them, and proves what holds in every state of every run. Where the code falls short of what it
is for, the code is kept, a run that shows it is proved to exist, and the exact condition under
which it goes right is proved.

## How it is laid out

Heap-level classes, each tied to a function of its old state:

* `Queue.dfy` - the intrusive queue: `next`, `head` and `tail` rewritten in place, refining a
  sequence. `Mailbox.dfy` - a worker's shared queue and private batch, with the "not in queue" mark.
  `WorkerQueues.dfy` - the same queues are the machine's: each item stands for one task, and what the
  code reads off the marks is what the machine asks of both queues. `EventQueue.dfy` - so is the
  socket's event queue, with its hand-over and its pop.
* `Slots.dfy`, `SlotArray.dfy` - the slot array as a value, followed memory cell by memory cell,
  and the class whose loops compute it. `Sockets.dfy` - the table of sockets through any history of
  opening and closing. `Teardown.dfy` - closing a socket; its class updates its
  tables as such values. `Building.dfy` - connecting, accepting and binding fill those tables.
* `FrameLists.dfy` - the outbound lists with `next`, `first` and `last` as pointers, refining the lists of the
  machine.
* `Net.dfy` - the socket, its connections and its workers as fields updated in place, one method
  per critical section; `Routines.dfy` - the worker loop and the write handler, whole, with any
  steps of other threads in between; `Broadcast.dfy` - sending to many connections.

The protocol as a machine, and what its runs keep:

* `Machine.dfy` - the state, and one step per critical section or unlocked shared access. Fields
  marked "history" (what was sent, written, lost, parsed, scheduled, executed, taken) record the
  run; no step reads them. A failed assertion of the code is a `fault`, after which nothing happens.
* `TaskLists.dfy`, `Invariant.dfy`, `Connections.dfy`, `Preservation.dfy` - the invariant `Core` and
  that every step keeps it. `Flow.dfy`, `Counts.dfy` - counters, marks, read decisions, inbound
  order. `Attaching.dfy`, `WakeUps.dfy`, `Senders.dfy`, `Sleepers.dfy`, `DontWait.dfy` - connecting, the
  wake-up descriptor, the outbound lists, the condition wait and sends that must not wait, each with
  exactly the steps that break it. `HighWater.dfy` - when exactly reading and sending are stopped,
  resumed and announced. `Callbacks.dfy` - one callback at a time on a worker, and closed connections.
  `Stopping.dfy` - tasks that nobody cancels, and that a worker told to stop can.
* `Theorems.dfy` - the main results, from a fresh socket with any marks and any number of users, for
  every interleaving of these steps. `Shortfalls.dfy`, `EarlyUse.dfy` - whole runs from a fresh socket
  in which an intent is missed.
* `Locks.dfy`, `Guards.dfy`, `Deadlock.dfy` - what every step locks, that these are exactly the locks of what
  it changes, and that threads doing any of it cannot deadlock.

`dafny verify dfyconfig.toml` checks everything.

## What the code does and was not meant to

The model follows the code in each of these; the lemma in brackets says exactly when it matters.

* `src/utils/parr.c:82` moves `last` up also when a hole was reused, which can make memory that was
  never written look like an entry (`Slots.InsertRefines`, `Slots.ReuseExposesGarbage`). The table of
  sockets reuses its holes: it is right through a history iff every opening and closing meets its guard
  (`Sockets.TableOfSockets`, `Sockets.ReuseNeedsLuck`). An entry that looks like NULL ends every loop
  over the table (`Slots.LoopStopsAtNull`).
* `src/utils/parr.c:111-143` gives memory back without pulling `last` back. An array that outgrew one
  growth step can then fail its next insertion, and can never be emptied in any order
  (`Slots.ClearRefines`, `Slots.ShrinkBreaksNextInsert`, `Slots.DrainInAnyOrder`), so closing a socket
  goes out of bounds iff one of its tables got more than ten connections or binds
  (`Teardown.Socket.Term`, `Building.OpenAndClose`).
* `src/core/sock.c:341` does not initialise `cnt`; the account is right iff it happens to be 0
  (`Flow.CountMustStartAtZero`). The machine counts from 0.
* `src/core/global.c:179-186` puts a connection into the table before its attach task is scheduled. A
  decision to stop in between can be undone by the attach task, and a send in between can cost the
  holder of the write token its watcher (`Theorems.LastDecisionWins`, `Theorems.WriteToken`,
  `EarlyUse.StopUndone`, `EarlyUse.StopOvertaken`, `EarlyUse.WatcherCut`); neither can happen to a connection that is left alone
  until then (`Theorems.SoundIfLeftAlone`).
* `src/core/sock.c:447-459` merges the unwritten and the new frames after EAGAIN but copies back the old
  `last` pointer; a later send then unlinks the frames behind it (`Theorems.OutboundFifo`,
  `Senders.LossExactly`, `Shortfalls.FrameLost`).
* `src/core/sock.c:425-431` and `src/core/sock.c:504-506` test for "empty" and reset `writing` in two
  critical sections; a send in between is stranded (`Theorems.NoFrameForgotten`, `Shortfalls.FrameStranded`).
* `src/core/global.c:259-262` tests `writing` before taking the lock it waits on: a sender can sleep with
  nobody left to wake it (`Theorems.NoSenderForgotten`, `Shortfalls.SleepsForNothing`). One that passed the
  test for DONWAIT at line 257 is made to wait iff the count has reached the mark by line 259
  (`Theorems.NeverMadeToWait`, `Theorems.DontWaitWaits`, `Shortfalls.ImpatientWaits`); it takes another send
  that counts its frame in between, so with the root's lock held it cannot happen (`Broadcast.SendOne`).
* `src/core/global.c:206-210` leaves `want_efd` set on a timeout, so that a stale signal trips the assertion
  at line 216. It does no harm until a reader takes the last event under such a signal
  (`Theorems.SignalsMeanEvents`, `WakeUps.AgreedExactly`, `Shortfalls.StaleSignal`). With several readers one
  can take the signal of another (`Theorems.ReadersWokenInTime`, `Shortfalls.SignalTaken`).
* `src/core/global.c:205-212` asserts that a wait ends with a signal or a timeout, but it can also be
  interrupted (`src/utils/efd.c:52-53`); the machine has that step, and it is a fault.
* `src/core/global.c:245-292` has no return on success, although `perf/remote_lat.c:74-75` relies on 0. The
  value is a parameter here; with STOP_ONERR it decides how far a broadcast gets (`Broadcast.StopsAtJunk`).

## Model

| member | source | states |
|---|---|---|
| IntrusiveQueue.Queue.constructor | src/utils/queue.c:28-32 | a fresh queue is a valid empty chain |
| IntrusiveQueue.Queue.IsEmpty | src/utils/queue.c:40-43 | true exactly for the empty sequence |
| IntrusiveQueue.Item.constructor | src/utils/queue.c:95-98 | a fresh item carries the "not in queue" mark |
| IntrusiveQueue.Queue.Push | src/utils/queue.c:45-55 | appends to the sequence, keeps the chain acyclic with `tail` its last node, and marks the item as queued |
| IntrusiveQueue.Queue.Pop | src/utils/queue.c:81-93 | takes the first item off the sequence and gives it the mark back; null on the empty queue |
| IntrusiveQueue.Queue.Remove | src/utils/queue.c:57-79 | deletes exactly the given item and keeps the order of the rest; leaves everything alone when the item is in another queue or in none |
| IntrusiveQueue.Queue.Unlink | src/utils/queue.c:67-75 | rewriting head, tail and the neighbour's pointer takes out just the item at the given place |
| IntrusiveQueue.Queue.Splice | src/core/sock.c:366-377 | the constant-time hand-over gives events followed by the batch, with no item's mark changed; the middle branch is unreachable |
| IntrusiveQueue.Queue.TakeAll | src/utils/thread.c:88-91 | the private copy holds the whole sequence and the shared queue is empty; no item's mark changes |
| Mailbox.Mailbox.Schedule | src/utils/thread.h:48-51 | scheduling appends to the shared queue and keeps the mark true of exactly the items in one of the two queues |
| Mailbox.Mailbox.Cancel | src/core/sock.h:79-81 | cancelling takes a task out of the shared queue, and is a no-op for one in the private batch although its mark is set |
| Mailbox.Mailbox.Swap | src/utils/thread.c:87-92 | the batch is what was scheduled, in order, and every mark outlives the swap |
| Mailbox.Mailbox.Next | src/utils/thread.c:95 | the loop takes the batch in order and clears the mark of the task it takes |
| WorkerQueues.Loop.MarkMeansQueued | src/utils/queue.c:105-108 | the mark of an item is set iff its task waits in the shared queue or in the private batch, as the machine asks |
| WorkerQueues.NamesWithout | src/utils/queue.c:66-76 | taking an item out of the chain removes exactly its task, and keeps the order of the others |
| WorkerQueues.Loop.Schedule | src/utils/thread.h:48-51 | pushing an item on the heap queue is the machine's push of its task |
| WorkerQueues.Loop.Cancel | src/core/sock.h:79-81 | removing an item is the machine's cancelling, which does nothing for a task in the private batch |
| WorkerQueues.Loop.Choose | src/core/sock.h:77-81 | one turn of the macro, going by the marks of the two items, is the machine's decision for one connection |
| WorkerQueues.Loop.Swap | src/utils/thread.c:87-92 | handing head and tail over is the machine's swap |
| WorkerQueues.Loop.Next | src/utils/thread.c:95-101 | popping is the machine's, and a stop task known by its item drains the batch |
| EventQueue.Collect | src/core/sock.c:340-359 | the private chain of new items stands for the parsed frames, in order |
| EventQueue.Inbox.Link | src/core/sock.c:366-377 | linking the private chain behind the queue appends its events |
| EventQueue.Inbox.Read | src/core/sock.c:340-382 | on heap queues, the read handler up to the mark does to the socket what the machine does |
| EventQueue.Inbox.Take | src/core/global.c:216-221 | popping hands out the item of the oldest event and does to the socket what the machine does |
| Slots.InsertRefines | src/utils/parr.c:61-85 | on a good array insertion never fails, returns the lowest free index and keeps the array good; it is the map insertion iff there was no hole or the exposed slot holds the empty mark |
| Slots.LoopStopsAtNull | src/utils/parr.c:168-189 | a loop over the table, which ends at NULL, visits all occupied slots iff none of them holds NULL |
| Slots.ReuseExposesGarbage | src/utils/parr.c:74-82 | a concrete insertion that makes unwritten memory a live entry |
| Slots.ClearRefines | src/utils/parr.c:111-146 | removal stays in bounds and keeps the array good iff another slot of the final step stays in use, or one of two corner cases holds; then it removes one key, and an emptied array is the initial one |
| Slots.ClearLastOfStep | src/utils/parr.c:123-143 | what the shrink loop does when the final step was drained although earlier ones exist |
| Slots.ShrinkBreaksNextInsert | src/utils/parr.c:61-63 | after removing any of ten entries from room for twenty the next insertion fails its own assertion |
| Slots.WalkVisitsAll | src/utils/parr.c:148-185 | begin and next lead through exactly the occupied slots, each once, in increasing order; what a loop makes of an entry that is NULL is in `Slots.LoopStopsAtNull` |
| Slots.ClearWhileDraining | src/utils/parr.c:123-146 | one removal while an array is being emptied: it removes one key, succeeds whenever at most one growth step was used, and resets the array exactly at the last entry |
| Slots.ShrinkWhileDraining | src/utils/parr.c:127-143 | the shrink loop loses no live entry and cannot reset an array that outgrew one step |
| Slots.DrainInAnyOrder | src/utils/parr.c:123-146 | every order of removals that names all entries once ends in the initial state if at most one growth step was used, and out of bounds if more was |
| SlotArrays.SlotArray.Realloc | src/utils/parr.c:44-59 | the new block has the old content as far as both reach |
| SlotArrays.SlotArray.Grow | src/utils/parr.c:65-72 | one growth step of arbitrary content is added exactly when the array is unused or has one slot left |
| SlotArrays.SlotArray.FindHole | src/utils/parr.c:74-79 | the loop finds the lowest free slot below `last` |
| SlotArrays.SlotArray.Insert | src/utils/parr.c:61-85 | the in-place insertion is the value-level one, faults included |
| SlotArrays.SlotArray.IsEmpty | src/utils/parr.c:87-96 | true iff the map is empty |
| SlotArrays.SlotArray.Size | src/utils/parr.c:98-109 | the number of entries of the map |
| SlotArrays.SlotArray.CanShrink | src/utils/parr.c:111-121 | the downward scan decides whether the final step is free, or leaves the array |
| SlotArrays.SlotArray.Clear | src/utils/parr.c:123-146 | the in-place removal is the value-level one, faults included |
| SlotArrays.SlotArray.ShrinkLoop | src/utils/parr.c:127-143 | the loop terminates in the state of the recursive shrinking |
| SlotArrays.SlotArray.Reset | src/utils/parr.c:131-132 | term's size assertion holds iff nothing is left, and then the array is the initial one |
| SlotArrays.SlotArray.Begin | src/utils/parr.c:148-166 | the first occupied slot, or the end |
| SlotArrays.SlotArray.Next | src/utils/parr.c:168-185 | the first occupied slot behind the cursor, or the end |
| Sockets.FaithfulExactly | src/core/global.c:88-114 | opening a socket gives it the lowest free number and keeps the others, and closing takes out one, iff the operation meets its guard; closing a number that is not open fails |
| Sockets.TableOfSockets | src/core/global.c:77-120 | through any history of opening and closing the table stays in bounds and is the map it should be, and its initial state exactly when no socket is open, iff each operation meets its guard |
| Sockets.ReuseNeedsLuck | src/core/global.c:77-120 | two sockets, the first closed, and another one: right iff memory that was never written holds the empty mark |
| Teardown.UnlinkBoth | src/core/sock.c:85-92 | taking an incoming connection out of both tables keeps "in one bind's table iff incoming in the root's" true |
| Teardown.FreeOne | src/core/sock.c:85-92 | each connection stays either freed once or listed |
| Teardown.NextFindsFirst | src/core/sock.c:85 | the cursor survives the removal under it, also one that resets the table |
| Teardown.Socket.TermBindConn | src/core/sock.c:85-92 | one turn of the loop over a bind's table frees one connection from both tables |
| Teardown.Socket.TermBindConns | src/core/sock.c:80-93 | the loop over a bind's table empties it, stays in bounds iff it is small, and keeps both tables in step |
| Teardown.Socket.TermBind | src/core/sock.c:100-106 | one turn of the loop over the binds: the bind's connections first, then its own slot |
| Teardown.Socket.TermBinds | src/core/sock.c:95-107 | the bind pass leaves every bind's table and the table of binds empty |
| Teardown.Socket.TermOwnConns | src/core/sock.c:80-93 | after the bind pass only outgoing connections are left, and none is cleared twice |
| Teardown.Socket.Term | src/core/sock.c:109-126 | closing stays in bounds iff no table outgrew one growth step; then every connection is freed exactly once and all tables are back in their initial state |
| Building.InsertDense | src/utils/parr.c:61-85 | into a table without holes an insertion never fails and goes to the end, whatever memory holds |
| Building.ConnectKeeps | src/core/global.c:179-184 | an outgoing connection keeps the root's table and the binds' in step |
| Building.AcceptKeeps | src/core/sock.c:177-200 | so does an incoming one, entered in both |
| Building.BindKeeps | src/core/global.c:146-149 | and a new bind with its empty table |
| Building.GrowAllKeeps | src/core/global.c:146-188 | after any connections, accepts and binds, in any order, the tables are as closing wants them |
| Building.TablesAfter | src/core/global.c:146-184 | after any history of connects, accepts and binds the k-th connection is the k-th that was made, of that kind, and each bind's table lists exactly the connections it accepted, in order |
| Building.OpenAndClose | src/core/sock.c:109-126 | opening, any connections and binds, and closing: in bounds iff the history makes not more connections, binds, or accepts of one bind than a growth step holds, and then each connection that was made is freed once |
| Building.BuiltHolds | src/core/global.c:179-184 | every connection sits in the root's table at its own number |
| Machine.Bulk | src/core/sock.h:71-83 | the macro touches neither root nor users and moves no connection to another worker |
| Machine.BulkConns | src/core/sock.h:71-83 | of a connection it changes nothing but what is recorded about decisions |
| Machine.BulkFrame | src/core/sock.h:71-83 | of a worker it changes the shared queue alone |
| Preservation.BulkView | src/core/sock.h:71-83 | the macro decides for each connection once, and no turn concerns what another has pending |
| Net.Net.constructor | src/core/sock.c:47-77 | a fresh socket is the machine's initial state |
| Net.Net.BulkSchedule | src/core/sock.h:71-83 | the loop applies the decision to every connection, in slot order |
| Net.Net.Collect | src/core/sock.c:340-359 | the private batch holds the parsed frames in order, and `cnt` their number |
| Net.Net.HandOver | src/core/sock.c:362-382 | the batch goes behind the queued events, the count grows by it, and a reader that asked is signalled once |
| Net.Net.ReadHandler | src/core/sock.c:340-392 | the whole critical section, with the stop decision at the mark, is one machine step |
| Net.Net.TakeLocked | src/core/global.c:216-230 | hands out the oldest event, or fails the assertion; restarts the readers below the mark |
| Net.Net.CountLocked | src/core/global.c:280-291 | counts the frame and stops sending at the mark |
| Net.Net.AccountLocked | src/core/sock.c:475-492 | subtracts, resumes below the mark, and takes the request for a broadcast |
| Net.Net.ReleaseAll | src/core/sock.c:494 | the broadcast lets every blocked sender go on and moves nobody else |
| Net.Net.EnterGet | src/core/global.c:195-204 | an event at once, nothing with DONWAIT, else the request for a signal |
| Net.Net.Perform | src/core/sock.c:316-507 | any machine step is carried out in place by the method of its critical section |
| Routines.OthersUntouched | src/utils/thread.c:85-107 | no step of another thread changes anything of a worker but its shared queue |
| Routines.RunTask | src/utils/thread.c:95-106 | one turn of the loop executes the front task, or stops at the stop task, whatever happens in between |
| Routines.AsyncRoutine | src/utils/thread.c:85-107 | the routine executes exactly the tasks queued at the swap, in order, up to the stop task, and discards those behind it, whatever is scheduled and cancelled meanwhile |
| Callbacks.BatchInAnyRun | src/utils/thread.c:85-107 | in every run from a swap, under any interleaving, a worker that is through with its batch has executed exactly what was queued at the swap, in order, up to the stop task, and discarded the rest |
| Callbacks.LaneStays | src/utils/thread.c:87-101 | but for the swap no step adds to, takes from or reorders what a worker has taken |
| Callbacks.OneAtATime | src/utils/thread.c:95-107 | between the start and the end of a callback the worker's thread only goes on with it, and after its stop task it does nothing |
| Callbacks.ReadOrClose | src/core/sock.c:316-333 | a connection whose watcher is active, on a worker that is idle, can be read or found closed |
| Callbacks.CloseStops | src/core/sock.c:396-406 | closing ends all callbacks of the connection at once |
| Callbacks.ClosedRefuses | src/core/global.c:253-256 | no send to a closed connection is let in, and its write handler returns at once |
| Callbacks.ClosedExactly | src/core/sock.c:401-402 | a connection is closed by the end of its read handler, by nothing else, and for good |
| Routines.HandEnds | src/core/sock.c:445-506 | when the handler is through, the token is held and the watcher active iff it left at EAGAIN |
| Routines.WrittenStays | src/core/sock.c:470 | only a write of its own handler adds to what is written of a connection |
| Routines.OneMoreAnswer | src/core/sock.c:440-470 | one more answer of writev writes just the frames it completes, as far as the list goes, and EAGAIN none |
| Routines.WriteList | src/core/sock.c:439-471 | with the private list L and answers that complete n frames, exactly the first min(n, |L|) frames of L are written and counted as removed, and the rest is kept; the loop ends with no rest or at EAGAIN |
| Routines.OuterTurn | src/core/sock.c:422-472 | one turn of the outer loop writes of the list it takes what the answers complete, and adds as many to the removed ones |
| Routines.FinishHandler | src/core/sock.c:474-506 | after subtracting and waking the token is given back, and nothing more is written |
| Routines.WriteHandler | src/core/sock.c:412-507 | the whole handler is a run of the machine under any interleaving and any answers of writev, in which exactly the frames that the answers complete are written, list by list; token and watcher are given back both or neither, and neither only if its last answer was EAGAIN and nothing was written |
| Broadcast.TargetsAreWanted | src/core/global.c:305-315 | the loop sends to the connections in the root's table that pass its test, each once, in increasing order |
| Broadcast.TargetsAreRecipients | src/core/global.c:305-313 | flag 1 means exactly the incoming connections in the table, flag 2 the outgoing ones, both flags or none all of them |
| Broadcast.QuietStep | src/core/global.c:302-320 | no step that does without the root's lock changes count, mark, stop flag or the broadcasting user |
| Broadcast.SendOne | src/core/global.c:253-292 | with the root's lock held a DONWAIT send is answered by the state of the socket, never waits, and counts its frame iff it queued it |
| Broadcast.FirstOnes | src/core/global.c:257-290 | the hysteresis hands the frame to the first min(live, room) live connections |
| Broadcast.StopsAtJunk | src/core/global.c:315-317 | when nothing stands in the way STOP_ONERR lets all sends happen iff each but the last left a 0 behind |
| Broadcast.EndsReturned | src/core/global.c:315-321 | what the caller gets: 11 for EAGAIN, -1 for a closed connection, the value left behind for a send that went through, 0 if there was nobody to send to |
| Broadcast.SendAll | src/core/global.c:298-322 | the broadcast is a run of the machine, under any steps of others that need no root lock, in which the caller's own steps are one send to each connection that the flags mean, in slot order and once each, with the answers the hysteresis gives; it returns 11, -1 or whatever the last send left behind, and with STOP_ONERR ends early only at a value that is not 0 |
| Broadcast.ReachesTheFirst | src/core/global.c:298-322 | without STOP_ONERR and with an enabled mark the frame is queued on exactly the first min(live, room) live connections, the count grows by as many, and the other live ones get EAGAIN |
| FrameLists.AppendRefines | src/core/global.c:276 | appending behind `last` does to the pointers what the machine does to its list, stale `last` included |
| FrameLists.DropRefines | src/core/sock.c:470 | so does erasing the written frames from the front one by one, after which a `last` that pointed to one of them is stale for good |
| FrameLists.MergeRefines | src/core/sock.c:447-459 | so does the merge after EAGAIN, which links the queued frames behind the local `last` and copies that pointer back |
| Connections.DecidedReadOk | src/core/sock.h:71-83 | a decision becomes the last pending read task of its connection although cancelling misses tasks in the private batch, unless the attach task stands behind the task it relies on |
| Connections.OvertakenLoses | src/core/sock.h:77-81 | in that case it never does |
| Connections.BegunOk | src/core/global.c:186 | scheduling the attach task keeps everything else in force |
| Connections.ExecutedOk | src/core/sock.c:16-45 | executing a read task moves the decision from the queues to the watcher |
| Connections.TakenOk | src/core/sock.c:434-438 | taking the whole list keeps the order of frames |
| Connections.WrittenOk | src/core/sock.c:470 | frames written in full move from the private list to what was written, in order |
| Connections.DecidedQueue | src/core/sock.h:77-81 | what the shared queue holds of the pair after a decision, attach task included |
| Connections.MergedOk | src/core/sock.c:447-459 | a merge keeps the order of frames and accounts for each one that drops out |
| Connections.InsertedOk | src/core/global.c:271-278 | an insertion keeps token and order and accounts for each frame that drops out |
| Invariant.CancelOk | src/core/sock.h:79-81 | cancelling strikes the task from the schedule and keeps executed ++ pending equal to the rest of it |
| Invariant.PopOk | src/utils/thread.c:95-101 | popping, and stopping, lose no task from the account |
| Preservation.TokenGuardsPush | src/core/global.c:272-275 | while the token is free the write task is in no queue, so the assertion of push holds |
| Preservation.CoreExec | src/core/sock.c:16-45 | a task callback changes nothing but its own connection's watchers, and keeps the invariant of all others |
| Preservation.CoreAgain | src/core/sock.c:445-465 | putting the list back after EAGAIN keeps token, order and account |
| Preservation.CoreClose | src/core/sock.c:396-406 | closing may drop the watcher and keep the token, and nothing else |
| Preservation.CoreStep | src/core/sock.c:316-507 | every step keeps the invariant: one pending read task decides, one holder of the token, outbound order, worker order |
| Preservation.CoreRun | src/core/global.c:191-292 | so does every run |
| Callbacks.WatchersExactly | src/core/sock.c:16-45 | a read watcher is started and a write watcher stopped by the attach task, they are started and stopped by their tasks, by closing and by the end of the write handler, and by nothing else |
| Flow.CountMustStartAtZero | src/core/sock.c:341-363 | the received count and the queued events agree iff the uninitialised counter was 0 |
| Flow.FlowStep | src/core/sock.c:361-392 | every step keeps inbound order, the received count, both hystereses and the decision in force |
| HighWater.MarksExactly | src/core/sock.c:384-392 | at every step reading is stopped iff the count is above the mark, or was stopped and has not fallen below; each stop covers all connections there are then; the broadcast is announced exactly by the subtraction that ends a stop somebody asked to be woken from |
| Counts.CountStep | src/core/sock.c:434-477 | every step conserves count + uncounted = held + unsubtracted + lost |
| Counts.BoundStep | src/core/global.c:257-291 | every step keeps the overshoot within the number of senders who never wait |
| WakeUps.AlertExactly | src/core/global.c:195-217 | for any number of readers, the one step that leaves a reader waiting with an event queued and no signal is another reader taking it |
| WakeUps.FineExactly | src/core/global.c:205-217 | with one reader, timed out or not, taking the last event while the descriptor is signalled is the only step after which a signal stands for nothing |
| WakeUps.AgreedExactly | src/core/global.c:202-217 | with one reader, the timeout and the interruption are the only steps after which descriptor and request no longer fit it |
| DontWait.WaitsExactly | src/core/global.c:257-262 | a user gets into the wait in exactly one kind of step: its second test finds sending stopped |
| DontWait.BlockedExactly | src/core/sock.c:493-494 | a blocked sender goes on with its frame at the broadcast that a handler announced, without looking at the mark again, and at nothing else |
| DontWait.SecondTest | src/core/global.c:257-264 | a send with DONWAIT, whatever others do between its two tests, waits iff the count reached the mark in between |
| Senders.ListsStep | src/core/sock.c:422-472 | every effect a step can have on a connection's lists, token and losses |
| Senders.CleanExactly | src/core/sock.c:447-459 | only a merge that finds newly sent frames leaves a stale `last`, and it always does |
| Senders.LossExactly | src/core/sock.c:447-459 | frames are lost exactly when something is linked behind a `last` that is not the end |
| Senders.LostExactly | src/core/sock.c:447-459 | over a run a connection loses frames iff some step links behind a stale `last` |
| Senders.NothingLost | src/core/sock.c:445-460 | no step does in a run in which EAGAIN never finds new frames |
| Senders.StrandedExactly | src/core/sock.c:502-506 | only a reset after a send came in strands frames, and the next send picks them up |
| Senders.StrandedNever | src/core/sock.c:423-506 | frames that wait have the token in every state of a run iff no reset comes after a send that followed its test |
| Sleepers.WokenExactly | src/core/global.c:259-262 | only falling asleep on an outdated test breaks the promise that a sleeping sender is woken |
| Attaching.MarksStep | src/core/global.c:179-186 | exactly two kinds of step are recorded against a connection: its attach task coming behind a decision to stop, and being executed under an active write watcher |
| Attaching.UnspoiltStep | src/core/global.c:179-186 | as long as a connection is left alone until its attach task is scheduled, no step puts a stop or write task ahead of that task |
| Attaching.SafeIfLeftAlone | src/core/global.c:179-186 | so neither kind of step can then occur |
| Theorems.LastDecisionWins | src/core/sock.h:71-83 | in every state of a run the last pending read task of an open, attached connection is the owner's latest decision covering it, and with none pending the watcher is as decided, iff no step lets the attach task stand behind a decision to stop |
| Theorems.CrossingBreaks | src/core/global.c:179-186 | each such step leaves a state in which it is not |
| Theorems.WriteToken | src/core/global.c:271-278 | in every run the token is held at most once and a push never meets a queued task; for an open connection `writing` is set iff exactly one of pending write task and active watcher exists, iff no attach task was executed under an active write watcher |
| Theorems.SoundIfLeftAlone | src/core/global.c:179-186 | both hold for every connection that no decision to stop and no send reaches between its table entry and its attach task |
| Theorems.OutboundFifo | src/core/sock.c:422-472 | in every run, written ++ private list ++ list is the sequence sent without the lost frames; it is all of it iff no step links behind a stale `last`, and none does without a racing merge |
| Theorems.WorkerFifo | src/utils/thread.c:72-107 | in every run, executed ++ discarded ++ in flight ++ batch ++ queue is the schedule minus the cancelled tasks, in order; nothing is executed after the stop task |
| Stopping.Scheduled | src/utils/thread.c:72-84 | telling a worker to stop, attaching a connection and sending with the token free each put their task last in the worker's queue |
| Stopping.TaskStays | src/core/sock.h:77-81 | no step takes a stop, attach or write task from its worker: it is pending, executed, or discarded by the stop task |
| Stopping.CanStop | src/utils/thread.c:72-101 | a worker with its stop task queued can always stop by its own steps, through what it has begun and what is queued before |
| Theorems.StopIsKept | src/utils/thread.c:72-75 | in every run, from the moment a worker is told to stop the stop task is in one of its queues or the worker has stopped |
| Theorems.WorkersCanStop | src/utils/thread.c:72-101 | at any point of any run each worker can be told to stop and then does |
| Theorems.NoFrameForgotten | src/core/sock.c:423-506 | frames in a list mean that the token is held, in every state of a run, iff no send comes between a test for empty and its reset |
| Theorems.NoSenderForgotten | src/core/sock.c:479-494 | a sleeping sender is bound to be woken, in every state of a run, iff no sender falls asleep on an outdated test |
| Theorems.NobodySleepsAtRest | src/core/sock.c:479-494 | in a run in which no sender falls asleep on an outdated test, nobody sleeps when no send has yet to count its frame, no handler is under way, and the backlog, with what was lost, is below the mark |
| Theorems.NeverMadeToWait | src/core/global.c:257-262 | in every run a user, or a user in calls with DONWAIT, gets into the wait in no state iff it never makes its second test while sending is stopped |
| Theorems.DontWaitWaits | src/core/global.c:257-264 | at any point of any run a send with DONWAIT is let in only below the mark, and waits iff the count has reached the mark by its second test; if no other send counts its frame in between it goes through |
| Theorems.SendCountExact | src/core/global.c:281 | in every run the send count is conserved, and exact when no call is under way |
| Theorems.Receiving | src/core/sock.c:361-392 | in every run the received count is the number of events, both marks have their hysteresis, and events taken ++ queued are what each connection parsed |
| Theorems.MarksAtEveryStep | src/core/global.c:222-229 | so it is at every step of every run |
| Theorems.ReadersWokenInTime | src/core/global.c:195-217 | for any number of readers, none waits unsignalled while an event is queued, in every state of a run, iff no reader takes a signal that another waits for; a single reader never does |
| Theorems.SignalsMeanEvents | src/core/global.c:205-217 | with one reader, its waits timed out or not, the descriptor is signalled only while there is an event and no assertion on waking up fails, in every state of a run, iff the reader never takes the last event while the descriptor is signalled |
| Theorems.NoFalseAlarm | src/core/global.c:202-217 | with one reader whose waits are neither timed out nor interrupted, the descriptor is signalled only while there is an event, in every state of the run, and no assertion fails |
| Theorems.SendOvershoot | src/core/global.c:257-291 | with n senders who never wait, count plus senders under way stays at most mark + n - 1 |
| Shortfalls.FrameLost | src/core/sock.c:447-459 | a run from a fresh socket that loses the second of three frames |
| Shortfalls.FrameStranded | src/core/sock.c:502-506 | a run that ends with a frame queued, no token, no task and no watcher |
| Shortfalls.SleepsForNothing | src/core/global.c:259-262 | a run that ends with a sender asleep, nothing queued and sending not stopped |
| Shortfalls.ImpatientWaits | src/core/global.c:257-259 | a run in which a caller with DONWAIT is sent to the wait |
| Shortfalls.StaleSignal | src/core/global.c:206-216 | a run in which the assertion on a non-empty queue fails after a timeout |
| Shortfalls.WaitInterrupted | src/core/global.c:205-212 | a run in which an interrupted wait fails the assertion behind it |
| Shortfalls.SignalTaken | src/core/global.c:195-217 | a run in which one of two readers takes the signal and the other waits without one, the event still queued |
| EarlyUse.StopUndone | src/core/global.c:179-186 | a run that ends with reading stopped, the decision covering a connection, nothing pending for it, and the connection being read |
| EarlyUse.StopOvertaken | src/core/sock.h:77-81 | a run with the same end in which the decision relied on a stop task that was in the worker's batch already, ahead of the attach task |
| EarlyUse.WatcherCut | src/core/global.c:179-186 | a run that ends with a frame queued and the token held by nobody |
| Locks.StepOk | src/core/sock.c:362-506 | every step acquires upwards - root, connection, workers by number - and waits for anything else with no lock held, or just the root's in the condition wait |
| Guards.TakesExactly | src/core/sock.c:362-506 | each step takes exactly the locks it needs: the root's, that of the connection whose list or flags it touches, those of the workers whose queues it touches, all workers iff a decision is made |
| Guards.OneSection | src/core/sock.c:384-392 | each step but the making of a connection is one critical section: at some moment it holds all the locks it takes |
| Guards.RootGuarded | src/core/sock.c:362-392 | the counts, events, flags and table of a socket change only under its lock |
| Guards.ConnGuarded | src/core/global.c:271-278 | a connection's list, `writing` and closed flag change only under its lock |
| Guards.WorkerGuarded | src/utils/thread.c:77-92 | a worker's shared queue changes only under its lock |
| Guards.WaitsExactly | src/core/global.c:203-205 | the steps that wait for the descriptor or a thread, wait on the condition, and make the broadcast |
| Guards.UnsafeExactly | src/core/global.c:257-290 | inside a broadcast a send takes the same locks but the root's |
| Locks.SendsOk | src/core/global.c:302-320 | so do the sends of a broadcast under the root's lock |
| Locks.WorkOk | src/core/global.c:29-37 | so does everything the library does, locking all workers included |
| Deadlock.NoWaitCycle | src/core/global.c:29-37 | no reachable state of any number of threads has a cycle of threads waiting for each other's locks |
| Deadlock.HeldWhileWaiting | src/core/global.c:203-214 | whoever waits for the descriptor or a thread holds no lock, and the condition wait holds only the root's |
| Deadlock.WorkIsDone | src/core/global.c:29-37 | each thread carries out all lock operations of the work it begins, in order, up to where it stands |
| Deadlock.SleepsUntilCast | src/core/global.c:261-262 | who waits on the condition sleeps until somebody makes the broadcast |
| Deadlock.CastWakes | src/core/sock.c:493-494 | the broadcast wakes every sleeper, and each goes on only with the root's lock again |
| Deadlock.SomeoneMoves | src/core/global.c:259-291 | if a thread is blocked on a mutex, one that holds a lock can move |
| Deadlock.NoDeadlock | src/core/global.c:302-320 | from every reachable state all threads can finish what they are doing, or sleep in the condition wait, with all locks free and no new work begun |

## Left out

- Sockets, addresses, `read`, `writev` and the parser: a read is a step with any sequence of frames, a write one with any number of complete frames or EAGAIN.
- The framer library is not part of this model. Its frame list is taken to be linked by `next`, with `first` and `last`, to append behind `last` without looking where that points, and to drop written frames from the front; `prev` pointers and reference counts are not modelled, and a write through a pointer to an item that is gone is taken to harm nothing.
- The fatal write path (`src/core/sock.c:466-469`), allocation failures, and reviving a closed connection.
- SlotArrays.SlotArray.Realloc: allocation does not fail, and the content of new memory is arbitrary.
- Net.Net.Collect: counts from 0 where `cnt` is uninitialised; `Flow.CountMustStartAtZero` has the other values.
- An accepted connection is in the root's table with no worker set for a moment (`src/core/sock.c:187-197`); here it has its worker from the start, as a connecting one has (`src/core/global.c:172`).
- Until its attach task runs a connection's watchers are uninitialised memory; here starting and stopping them works as afterwards.
- `FSOCK_SND_BIND` and `FSOCK_SND_BINDCONN`: the code passes bind-local indices where the send wants socket-wide ones (`src/core/global.c:333-351`).
- Broadcast.SendAll: with DONWAIT only; of a broadcast that may wait only the locking is modelled (`Locks.SendsOk`).
- One root socket; several share nothing but the workers and the global lock.
- Connections and workers in `Net` are values in a sequence, so two names for one connection cannot arise.
- A connection's own `reading` field, which nothing reads; the listening task; `FSOCK_STOP_WRITE` and `FSOCK_CLOSE`, which are never scheduled.
- Memory order and spurious condition wake-ups: critical sections are atomic, unlocked reads of flags are steps of their own, except that the two reads at `src/core/global.c:253-258` are one.
- A halted worker does nothing more; libev may still run callbacks that were pending when the stop task ended its loop.
- Theorems.SignalsMeanEvents: for one reader, as `want_efd` holds one request.
- Theorems.NoSenderForgotten: says that the broadcast is due, not that the peer ever reads; `Theorems.NobodySleepsAtRest` has the case in which it did.
- Stopping the workers and freeing what a connection owns when a socket is closed.
- `fsock_sock_read_routinecxc`, `fsock_sock_read_handleryyy` and `src/utils/worker.c`, which are not used; library start and end, round-robin choice, and the other descriptor variants.
