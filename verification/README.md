# Verification of the XRP host library and the VDSP service

This project models, in Dafny, the parts of the VDSP software that have state, locks and invariants of their own, and
proves what their callers rely on. `dafny verify dfyconfig.toml` checks all of it.

**Command queues and reference-counted objects of the XRP host library** (`Host*.dfy`, `QueueList.dfy`,
`SendCommand.dfy`, `CommandRuns.dfy`). Devices, buffers, buffer groups, queues, events and requests live in a heap of
counted objects. Any number of client threads and one worker thread for each queue take steps: every region under a
mutex, every atomic change of a count and every free is one step, and a release that drops the last reference leaves
its thread the releases, frees and joins that are still to do as a stack of operations. A retain made by a caller that
already holds a reference is folded into the step it prepares. `HostSteps.Guard` says when a step can be taken,
`HostSteps.Faultless` what memory it may touch, `HostSteps.Apply` what it does. Destroying a queue works from any
thread, the queue's own worker included. `QueueList` has the linked list of a queue as an object and shows that the
steps of the step system do to a queue what the list code does; `HostParts` does the same for counts, groups, mappings
and events. A command at the DSP works on what its worker has read from the group before; `HostCommand` says when its
buffers last. `HostProgress` has distances that no step raises, and from them what happens in fair runs. `HostLedger`
shows that what clients hold changes only by their own calls, `HostNeutral` that it determines the memory, and
`HostTraces` what one client sees of a run. `HostResults` follows the result of a command to its event. `SendCommand`
has `sprd_vdsp_send_command` as a client of the API, with the calls it makes and their places, and shows that wherever
a client makes these calls in a run of the step system they leave no trace; `CommandRuns` shows that in such a run the
command reaches its worker once, with the caller's buffers.

**Session machine of the VDSP service** (`Service*.dfy`). `ServiceTables` and `ServiceCore` specify what each region
under `mLock` does to the client table, the counters and the device. `ServiceClass` has `BnVdspService` as an object
whose methods, with their loops over the table, meet these specifications. `ServiceSteps` puts the regions together
with the locks `mLoadLock` and `mPowerHintLock`, the calls to the DSP between regions, and the death handler that
releases locks half-way. A call enters the server and may wait for its locks; a client may die at any moment, after
which it makes no new call, but the calls it has in the server go on. Ghost state records the libraries in the DSP,
the device each call was admitted on, the type each open asked for, what each client has loaded by the results of its
calls, and the sends that ended on a map failure. The libraries that survive a release of the device are left open. A
step is called clean unless it is a region of a client whose death handler waits and changes the table: `ServiceLate`
shows that these regions are exactly what the conservation of opens and the load records do not survive, and
`ServiceRuns` has the runs. `ServiceDevice` says for all runs, clean or not, what changes the device under a call and
when a call is admitted without one. `ServiceTidy` says exactly when the DSP holds no library that nobody has loaded,
`ServiceAccounts` exactly when the records say what clients have loaded.

**Smaller parts.** `Namespace`: the sorted array of command namespaces against a finite map. `RingBuffer`: the
ring-buffer writer against a reader that may advance at any moment. `BusyTime`: the busy-time counters against a
history of when work was in progress, counted in units of the clock. `Parcels`: the binder requests from proxy to
service. `Bmp`: the BMP writer and reader. `Yuv`: conversion between planar and semi-planar images, and flips.

Integers are unbounded unless written out: a count of references or opens, a queue length and a clock are taken not to
overflow; 32-bit conversions on the binder wire and in BMP headers are modelled. Found on the way:

- A send whose input or output cannot be mapped (`IVdspService.cpp` lines 513-516 and 526-531) never leaves
  `mworking`. `ServiceTheorems.WorkingExact`, `CloseReleasesExactly`, `LostWedges` and `ServiceRuns.LostHappens` say
  exactly what follows.
- While a death handler sleeps (lines 453-460) a call of the dead client that is still inside the server can change the
  table under it: a late open, close or unload breaks the conservation of opens or the load records
  (`ServiceLate.SoundExactly`), and a late load can leave a library in the DSP that nobody has loaded
  (`ServiceTidy.AccountedExactly`); `ServiceRuns` has the runs.
- The service takes an open device for granted where `mopen_count` is not 0. After late closes it can be -1 with no device,
  and then a send of an innocent client passes line 498 and calls the DSP with `mDevice` NULL
  (`ServiceRuns.BlindSendHappens`); and an open that finds it 0 opens the device anew without looking whether one is open
  or in use (lines 354-379, `ServiceRuns.SwapHappens`). `ServiceDevice.CallsHeldExactly` says that nothing else takes the
  device from a call.
- A client may close while its own load is at the DSP, if others have the device open: the load returns 0, but lines 584-586
  find no entry to record it in, and the library stays in the DSP (`ServiceAccounts.AccountsExactly`,
  `ServiceRuns.UnrecordedHappens`).
- A command works on the buffers of its group after the worker has let go of the group's mutex, so setting a record
  meanwhile can have a buffer freed that the DSP uses (`HostCommand.CommandBuffers`, `BufferLost`).
- `sprd_vdsp_send_command` leaks a buffer exactly if it can be created but not added to the group
  (`SendCommand.CommandIsNeutral`), since lines 107-118 release only the buffers before it.
- `bmp_read_data` tests the first element of the red array for EOF instead of the one just read (line 194), so it accepts
  a file that lacks only the last red byte of an image wider than one pixel (`Bmp.ReadData`, `OnlyLastRedMissing`).
- `bmp_read` keeps the size of a plane in bytes in an int (line 82), so it cannot read back images of 2^29 pixels or more
  that `bmp_write` has written (`Bmp.ReadImage`); it tests the wrong pointer for NULL and goes on.

## Model

| member | source | states |
|---|---|---|
| HostInvariant.NoFault | Cadence/xrp/xrp-host/src/xrp_host_common.c:34-438 | In a state that keeps the invariant, whatever step a thread can take next touches only memory that is still allocated, takes no count below zero and frees nothing that is still referenced. What the DSP does with the buffers of a command after the worker has let go of the group is HostCommand |
| HostTheorems.NoMemoryFault | Cadence/xrp/xrp-host/src/xrp_host_common.c:34-438 | The same for every state of every run, over all interleavings of clients, workers, waiters and destroyers |
| HostCommand.ReadTakesRecords | Cadence/xrp/xrp-host/src/xrp_linux.c:294-301 | The records a worker takes to the DSP are those of the group at that moment, and all their buffers are in use |
| HostCommand.CommandSafeExactly | Cadence/xrp/xrp-host/src/xrp_linux.c:294-325 | While a command is at the DSP its buffers are all in use exactly if each is still a record of the group or has another owner |
| HostCommand.LastReleaseExactly | Cadence/xrp/xrp-host/src/xrp_host_common.c:222-240 | A buffer in use goes out of use exactly when a thread drops its last reference |
| HostCommand.CommandBuffers | Cadence/xrp/xrp-host/src/xrp_host_common.c:274-296 | From the reading of the records to the end of the command, over any stretch of a run: a buffer of the command is out of use exactly if it is in no record and has no other owner, and then every record that held it was replaced in the meantime |
| HostCommand.UntouchedGroupIsSafe | Cadence/xrp/xrp-host/src/xrp_host_common.c:274-296 | A command of whose group no record is set meanwhile keeps all its buffers |
| HostCommand.HeldBufferStays | Cadence/xrp/xrp-host/src/xrp_host_common.c:274-296 | Whatever records are set: a buffer of which clients drop fewer handles than they have stays allocated and in use |
| HostCommand.KeptBuffersAreSafe | Cadence/xrp/xrp-host/src/xrp_host_common.c:274-296 | What a caller can check before setting a record: a command keeps all its buffers if of each of them clients keep a handle until it ends, or nobody replaces a record that holds it |
| HostCommand.BufferLost | Cadence/xrp/xrp-host/src/xrp_host_common.c:274-296 | A run in which a command is at the DSP with a buffer that xrp_set_buffer_in_group has had freed |
| HostTheorems.ReferencesConserved | Cadence/xrp/xrp-host/inc/xrp_host_common.h:112-122 | Every object's count is the number of its owners: client handles, mappings, fields of objects in memory, requests lost with a queue, and the work threads have still to do; and its count is zero exactly while one single thread is on its way to free it |
| HostTheorems.FreedAtZero | Cadence/xrp/xrp-host/src/xrp_host_common.c:39-45 | An object leaves memory only when its count is zero, by the step of the thread that is to free it |
| HostObjects.DeathHandsOver | Cadence/xrp/xrp-host/src/xrp_host_common.c:227-240 | The thread that drops the last reference takes over exactly the references the dying object held, each once, and the duty to free it |
| HostObjects.RunHandsOver | Cadence/xrp/xrp-host/src/xrp_linux.c:458-482 | xrp_request_process disposes of exactly what a request holds: its group, its event, and the duty to complete that event |
| HostConservation.StepConserves | Cadence/xrp/xrp-host/src/xrp_host_common.c:34-438 | Each step of any thread keeps the balance between counts and owners, between objects with count zero and duties to free, and between pending events and duties to complete |
| HostRuns.StepKeepsInvariant | Cadence/xrp/xrp-host/src/xrp_threaded_queue.c:28-113 | Each step of any thread is free of faults and keeps the whole invariant: conservation and the shape of threads, workers, queues and sleepers |
| HostRuns.RunInvariant | Cadence/xrp/xrp-host/src/xrp_threaded_queue.c:28-113 | The invariant holds in every state of every run from the empty state |
| HostTheorems.FailedCreateIsNeutral | Cadence/xrp/xrp-host/src/xrp_host_common.c:380-407 | A queue or device buffer whose allocation fails after the device was retained leaves all counts, handles and objects as before the call, if no other thread moves in between; with other threads the call gives and takes nothing (HostLedger.HoldingsLedger) |
| HostTheorems.FailedSetIsNeutral | Cadence/xrp/xrp-host/src/xrp_host_common.c:274-296 | Setting a buffer at an index beyond the group leaves all counts, handles and objects as before the call, likewise |
| HostTheorems.NoStrandedWaiter | Cadence/xrp/xrp-host/src/xrp_linux.c:530-553 | While an event is pending its queue is referenced and not told to exit, the worker of that queue has not exited, and the request is queued, being pushed, being run or being completed |
| HostProgress.Nearer | Cadence/xrp/xrp-host/src/xrp_threaded_queue.c:41-113 | A distance to the completion of an event, or to the end of the worker that a destroy joins, in the lexicographic order of: request still to be pushed, requests ahead, place in the worker loop, command, groups and operations left. No step of any thread raises it, and every step of the one thread that can help lowers it |
| HostProgress.SomebodyHelps | Cadence/xrp/xrp-host/src/xrp_threaded_queue.c:41-93 | While an event is pending, or a thread is blocked in pthread_join on a worker, the thread that can help is neither asleep nor blocked: no lost wakeup and no deadlock |
| HostProgress.EventCompletes | Cadence/xrp/xrp-host/src/xrp_linux.c:458-482 | In every infinite run in which no thread that can always move waits for ever, every pending event is completed, whatever else goes on |
| HostProgress.WaitReturns | Cadence/xrp/xrp-host/src/xrp_threaded_queue.c:126-133 | In such a run every xrp_wait returns, and finds its event completed |
| HostProgress.DestroyReturns | Cadence/xrp/xrp-host/src/xrp_threaded_queue.c:83-93 | In such a run every destroy from another thread gets past pthread_join |
| HostTheorems.NoLostWakeup | Cadence/xrp/xrp-host/src/xrp_threaded_queue.c:100-133 | A worker that sleeps unsignalled has an empty queue that is not being destroyed, although a push signals only an empty queue; a waiter that sleeps unsignalled waits for a pending event |
| HostTheorems.StatusIsFinal | Cadence/xrp/xrp-host/src/xrp_linux.c:473-478 | A completed event keeps its status, whatever step is taken |
| HostResults.CommandReports | Cadence/xrp/xrp-host/src/xrp_linux.c:458-482 | The end of a command leaves its worker with exactly one completion of its event to publish, of the status it ended with, and the event pending till then |
| HostResults.StatusIsTheCommands | Cadence/xrp/xrp-host/src/xrp_linux.c:458-482 | Whoever finds the event of a command completed, however much later and whatever happened meanwhile, finds success exactly if the command succeeded |
| HostTheorems.ExactlyOnceFifo | Cadence/xrp/xrp-host/src/xrp_threaded_queue.c:28-62 | What was pushed to a queue is what its worker has finished, then the request in hand, then what is queued, in this order; only requests without an event can be left over, and only when the worker destroyed its own queue |
| HostTheorems.CompletionInOrder | Cadence/xrp/xrp-example/src/host_main.c:193-199 | When a later command's event is complete, so is that of every earlier command of the same queue |
| HostTheorems.JoinAfterDrain | Cadence/xrp/xrp-host/src/xrp_threaded_queue.c:83-93 | A destroy from another thread passes pthread_join only when every request ever pushed has been processed and the queue is empty |
| HostTheorems.WorkerOutlivesQueue | Cadence/xrp/xrp-host/src/xrp_threaded_queue.c:41-62 | Once the memory of a queue is gone its worker has exited or is inside the call that destroyed it, cannot take another request, and will exit when that call returns |
| HostTheorems.DestroyFindsNoEvents | Cadence/xrp/xrp-host/src/xrp_threaded_queue.c:83-98 | A queue that is being destroyed holds only requests without an event |
| HostTheorems.LostExactlyBySelfDestroy | Cadence/xrp/xrp-host/src/xrp_threaded_queue.c:83-98 | Requests are lost exactly when a worker frees its own queue while something is queued |
| HostLoss.LostExactly | Cadence/xrp/xrp-host/src/xrp_threaded_queue.c:83-98 | The requests lost are exactly those that were still queued, neither done nor in hand, when their queue was freed |
| HostLoss.LostIsUnattended | Cadence/xrp/xrp-host/src/xrp_threaded_queue.c:83-98 | A request is lost only if it has no event and no client holds its queue any more |
| HostLoss.EventfulQueueLosesNothing | Cadence/xrp/xrp-host/src/xrp_linux.c:530-553 | A queue to which only requests with an event are pushed never loses one |
| HostLoss.HeldQueueLosesNothing | Cadence/xrp/xrp-host/src/xrp_host_common.c:414-424 | A queue that a client holds loses nothing |
| HostLoss.KeptUntilDoneIsNotLost | Cadence/xrp/xrp-host/src/xrp_host_common.c:414-424 | A client that keeps its reference to a queue until the first n requests are done loses none of them, whatever happens later |
| HostLoss.LossHappens | Cadence/xrp/xrp-host/src/xrp_threaded_queue.c:83-98 | There is a run that loses a request this way |
| HostTheorems.QuietRoot | Cadence/xrp/xrp-host/src/xrp_host_common.c:34-438 | When all threads are quiet, every object is owned, directly or through other objects, by a client or by a request lost with a queue: there are no cycles of references |
| HostTheorems.NothingLeftBehind | Cadence/xrp/xrp-host/src/xrp_host_common.c:34-438 | When all threads are quiet and clients hold nothing, no object is left in memory, unless requests were lost with a queue |
| HostLedger.HoldingsLedger | Cadence/xrp/xrp-host/src/xrp_host_common.c:34-469 | What clients hold changes by nothing but what a call returns and what a client releases; worker steps change none of it |
| HostNeutral.QuietMemoryDetermined | Cadence/xrp/xrp-host/src/xrp_host_common.c:34-438 | In quiet states the objects in memory and their counts depend only on what clients hold and on the contents of groups; one buffer held in addition adds itself with count 1 and one reference to its device |
| HostNeutral.GentleLosesNothing | Cadence/xrp/xrp-host/src/xrp_threaded_queue.c:83-98 | As long as every request wants an event no step loses a request |
| HostNeutral.BalancedStretchLeavesNoTrace | Cadence/xrp/xrp-host/src/xrp_host_common.c:34-438 | If between two quiet states clients give back all they are given but for one buffer, if any, map nothing, leave groups made before alone and ask for events, the same objects are in memory with the same counts, but for that buffer and its reference to its device; for any number of clients and any interleaving |
| HostTraces.TraceAccounts | Cadence/xrp/xrp-host/src/xrp_host_common.c:34-469 | What clients are given and give up in a stretch is what one client sees in its own calls, and what the others are given and give up |
| HostTraces.TraceFresh | Cadence/xrp/xrp-host/src/xrp_host_common.c:34-438 | What a client is given by calls that create is new |
| HostTraces.TraceFits | Cadence/xrp/xrp-host/src/xrp_host_common.c:49-98 | What a client is given is what its last call asked for, whatever other threads do in between |
| HostParts.RefCounted.LastRelease | Cadence/xrp/xrp-host/inc/xrp_host_common.h:118-122 | The count goes down by one, and the caller learns exactly whether it was the last reference |
| HostParts.RecordsKept | Cadence/xrp/xrp-host/src/xrp_host_common.c:242-296 | The record read at an index is the one last added or set there; setting exchanges exactly the buffer that is to be released for the new one |
| HostParts.BufferGroup.Add | Cadence/xrp/xrp-host/src/xrp_host_common.c:242-272 | The buffer becomes the last record; a full array grows to (capacity + 2) * 2; -1 and no change exactly if it is full and cannot grow |
| HostParts.BufferGroup.Set | Cadence/xrp/xrp-host/src/xrp_host_common.c:282-295 | The record is replaced exactly if the index is in use, and the buffer returned for release is the one replaced, or else the new one |
| HostParts.BufferGroup.Get | Cadence/xrp/xrp-host/src/xrp_host_common.c:298-314 | The buffer of the record, exactly if the index is in use |
| HostParts.BufferGroup.ReleaseRecords | Cadence/xrp/xrp-host/src/xrp_host_common.c:229-234 | The loop of a last release drops one reference for each record, in order |
| HostParts.Mapping.Map | Cadence/xrp/xrp-host/src/xrp_host_common.c:142-155 | The range is accepted exactly if offset and length together are at most the size, without overflow in the comparison, and the mapping count goes up exactly then |
| HostParts.Mapping.Unmap | Cadence/xrp/xrp-host/src/xrp_host_common.c:157-169 | An address is accepted exactly if it is in the buffer or at its end, and the mapping count goes down exactly then |
| HostParts.ReleaseIsLastRelease | Cadence/xrp/xrp-host/inc/xrp_host_common.h:112-122 | The release step changes the count as LastRelease does, and its thread goes on with the work of the last release exactly if LastRelease reports it |
| HostParts.AddSlotIsAdd | Cadence/xrp/xrp-host/src/xrp_host_common.c:242-272 | The adding step changes the group as Add changes the array, and adds one reference to the buffer and none to anything else |
| HostParts.SetSlotIsSet | Cadence/xrp/xrp-host/src/xrp_host_common.c:274-296 | The setting step changes the group as Set changes the array, and leaves its thread to release exactly the buffer that Set returns |
| HostParts.GetSlotIsGet | Cadence/xrp/xrp-host/src/xrp_host_common.c:298-314 | The client is given a new reference to exactly the buffer that Get returns |
| HostParts.MapBufferIsMap | Cadence/xrp/xrp-host/src/xrp_host_common.c:142-155 | The mapping step counts as Map counts; exactly if offset and length together are at most the size it adds one mapping and one reference to this buffer, else it changes nothing |
| HostParts.UnmapBufferIsUnmap | Cadence/xrp/xrp-host/src/xrp_host_common.c:157-169 | The unmapping step counts as Unmap counts; exactly if the address is in the buffer or at its end it takes one mapping off and leaves its thread to release the reference, else it changes nothing |
| HostParts.MappedCanBeUnmapped | Cadence/xrp/xrp-host/src/xrp_host_common.c:142-169 | A range that was accepted can be unmapped later at any address inside it, which gives the reference back |
| HostParts.CompletionEndsWaits | Cadence/xrp/xrp-host/src/xrp_linux.c:473-479 | Publishing a result wakes a waiter of this event, and its next look ends the wait |
| QueueList.RequestQueue.Dequeue | Cadence/xrp/xrp-host/src/xrp_threaded_queue.c:28-39 | The head of the linked list is unlinked, the rest stays in order, and an emptied list has no tail |
| QueueList.RequestQueue.Push | Cadence/xrp/xrp-host/src/xrp_threaded_queue.c:100-113 | The request is appended to the list; the condition is signalled exactly when the list was empty |
| QueueList.RequestQueue.RequestExit | Cadence/xrp/xrp-host/src/xrp_threaded_queue.c:83-88 | exit is set and the list stays as it is |
| QueueList.RequestQueue.Poll | Cadence/xrp/xrp-host/src/xrp_threaded_queue.c:41-62 | One pass of the locked loop: the oldest request is taken if there is one; the worker stops exactly if the list is empty and exit is set |
| QueueList.RequestQueue.Drain | Cadence/xrp/xrp-host/src/xrp_threaded_queue.c:64-72 | With exit set and no more pushes the worker handles every queued request, in order, and stops |
| QueueList.TakeIsPoll | Cadence/xrp/xrp-host/src/xrp_threaded_queue.c:41-62 | The step with which a worker of the step system takes a request changes its queue as Poll changes the list, with the same outcome |
| QueueList.PushIsPush | Cadence/xrp/xrp-host/src/xrp_threaded_queue.c:100-113 | The push step of the step system changes the queue as Push changes the list and signals when Push does |
| QueueList.DestroyIsExit | Cadence/xrp/xrp-host/src/xrp_threaded_queue.c:83-88 | The destroy step of the step system sets exit as RequestExit does and wakes the worker |
| SendCommand.SendCommand | Cadence/xrp/vdsp-interface/vdsp_interface_internal.c:71-135 | For any number of buffers and any answers of the library the function makes exactly the calls of CommandLog, each on references it holds, and holds afterwards what it held before, and the buffer that was created but could not be added to the group, if there is one. The command succeeds exactly if every call does What the calls are is in Describes, by position: none, or group and queue only, or what Whole or Failed says |
| SendCommand.WholeLayout | Cadence/xrp/vdsp-interface/vdsp_interface_internal.c:83-135 | If all buffers are created and added: the new group and queue come first; then for each buffer in order its creation with its size and its addition to the group; then the only enqueue, on this queue with this group and an event; then, if it succeeds, the event, the wait for it and its release; only then the release of the group, of each buffer in order and of the queue |
| SendCommand.FailedLayout | Cadence/xrp/vdsp-interface/vdsp_interface_internal.c:97-121 | If a buffer fails: the buffers before it are created and added as above, nothing is enqueued, and group, buffers before it and queue are released in this order |
| SendCommand.CommandBalance | Cadence/xrp/vdsp-interface/vdsp_interface_internal.c:71-135 | The calls of a command give up all they are given, each once, but for that buffer |
| SendCommand.CommandIsNeutral | Cadence/xrp/vdsp-interface/vdsp_interface_internal.c:71-135 | In the step system: a client makes the calls of one command between two quiet states, with any interleaving of workers and of other clients that are balanced. Then the same objects are in memory with the same counts, the device among them, for every number of buffers and every failure; except that a buffer that could not be added is left over with one reference, and with it one reference to the device if it is in device memory |
| SendCommand.FillGroup | Cadence/xrp/vdsp-interface/vdsp_interface_internal.c:86-120 | The loop stops at the first failure, having made the calls for the buffers before it, and keeps exactly the buffers that were created and added |
| SendCommand.GiveBack | Cadence/xrp/vdsp-interface/vdsp_interface_internal.c:128-133 | The group, each buffer once and the queue are released, and nothing else |
| SendCommand.Account.RunCommandSync | Cadence/xrp/xrp-host/src/xrp_host_common.c:447-469 | A synchronous command makes exactly these calls: an enqueue with the group and an event, and if that succeeds the wait for the event and its release |
| CommandRuns.GroupIsAdds | Cadence/xrp/xrp-host/src/xrp_host_common.c:254-272 | In any stretch of a run, a group that one client makes and nobody else uses holds, in order, the buffers that the calls of this client have added |
| CommandRuns.QueueIsAsks | Cadence/xrp/xrp-host/src/xrp_linux.c:494-553 | To a queue that one client makes and nobody else enqueues to are pushed, in order, the requests that the calls of this client ask for, with their groups and events |
| CommandRuns.CommandIsPushedOnce | Cadence/xrp/vdsp-interface/vdsp_interface_internal.c:122-124 | Wherever a client makes the calls of an accepted command in a run, and nobody else uses its group and queue, exactly one request is pushed to the queue, with this group and an event |
| CommandRuns.DspGetsTheBuffers | Cadence/xrp/xrp-host/src/xrp_linux.c:294-301 | What the worker then takes to the DSP for that request are the buffers of the command, one for each of the caller's, in order |
| ServiceClass.BnVdspService.constructor | Cadence/xrp/vdsp-service/IVdspService.cpp:343-352 | A new service has an empty table, counters at zero and no device |
| ServiceClass.BnVdspService.GetClientOpenNum | Cadence/xrp/vdsp-service/IVdspService.cpp:893-903 | The open count of the client, 0 without an entry |
| ServiceClass.BnVdspService.AddClientOpenNumber | Cadence/xrp/vdsp-service/IVdspService.cpp:803-834 | The count of a known client goes up; a new client gets an entry with count 1 exactly if linkToDeath succeeds |
| ServiceClass.BnVdspService.DecClientOpenNumber | Cadence/xrp/vdsp-service/IVdspService.cpp:835-864 | The count goes down; an entry whose count reaches 0 is erased with its load records |
| ServiceClass.BnVdspService.ClearClientInfo | Cadence/xrp/vdsp-service/IVdspService.cpp:865-892 | The entry of the client is erased, all others stay |
| ServiceClass.BnVdspService.GetLoadNumTotalByName | Cadence/xrp/vdsp-service/IVdspService.cpp:787-802 | The sum over all clients of their load counts of the library |
| ServiceClass.BnVdspService.AddClientLoadNumByName | Cadence/xrp/vdsp-service/IVdspService.cpp:711-738 | The load count of the library goes up for this client, from a new record if there is none |
| ServiceClass.BnVdspService.DecClientLoadNumByName | Cadence/xrp/vdsp-service/IVdspService.cpp:739-768 | The load count goes down, a record that reaches 0 is erased; -1 exactly if the client has no record of the library |
| ServiceClass.BnVdspService.OpenXrpDevice | Cadence/xrp/vdsp-service/IVdspService.cpp:343-394 | The whole call under mLock does what the specification Opened says, with its four results |
| ServiceClass.BnVdspService.CloseXrpDevice | Cadence/xrp/vdsp-service/IVdspService.cpp:395-439 | The whole call under mLock does what the specification Closed says, with its three results |
| ServiceClass.BnVdspService.EnterCall | Cadence/xrp/vdsp-service/IVdspService.cpp:497-505 | A call is admitted and counted exactly if mopen_count is not 0 and the client has an entry with opens; at a mopen_count of -1 that does not mean an open device (ServiceRuns.BlindSendHappens) |
| ServiceClass.BnVdspService.LeaveCall | Cadence/xrp/vdsp-service/IVdspService.cpp:550-552 | A call that ends is no longer counted |
| ServiceClass.BnVdspService.BeginLoad | Cadence/xrp/vdsp-service/IVdspService.cpp:560-577 | A load is refused, counted at once because the library is loaded, or goes on to the DSP |
| ServiceClass.BnVdspService.FinishLoad | Cadence/xrp/vdsp-service/IVdspService.cpp:584-591 | After the DSP has answered the load is recorded exactly if it succeeded, and the call is no longer counted |
| ServiceClass.BnVdspService.BeginUnload | Cadence/xrp/vdsp-service/IVdspService.cpp:599-621 | An unload is refused without effect, recorded only, or goes on to the DSP because it was the last |
| ServiceClass.BnVdspService.UnloadLibraryLoadByClient | Cadence/xrp/vdsp-service/IVdspService.cpp:687-709 | All load counts of the dead client become 0, and exactly the libraries nobody else has loaded are unloaded |
| ServiceClass.BnVdspService.CloseNoLock | Cadence/xrp/vdsp-service/IVdspService.cpp:440-486 | With opens left, they are all given back at once, or the handler has to wait because calls are in flight and nobody else has the device open; without opens it changes nothing |
| ServiceClass.BnVdspService.GiveBack | Cadence/xrp/vdsp-service/IVdspService.cpp:465-485 | The device is released exactly if no opens are left, and count closes of the client are entered in the table |
| ServiceClass.BnVdspService.CloseAll | Cadence/xrp/vdsp-service/IVdspService.cpp:673-678 | The loop of binderDied over the opens it found, up to where closeXrpDevice_NoLock has to wait, and ClearClientInfo: does what Rounds says |
| ServiceClass.BnVdspService.BinderDied | Cadence/xrp/vdsp-service/IVdspService.cpp:659-685 | The handler does what DeathBegun says and has exactly the libraries unloaded that only the dead client had loaded |
| ServiceClass.BnVdspService.BinderDiedResume | Cadence/xrp/vdsp-service/IVdspService.cpp:453-485 | A turn of the waiting loop, and what follows when it ends, does what DeathResumed says |
| ServiceCore.ReopenUndone | Cadence/xrp/vdsp-service/IVdspService.cpp:382-387 | DecClientOpenNumber undoes AddClientOpenNumber: a failed open leaves the table as it was |
| ServiceCore.OpenedOk | Cadence/xrp/vdsp-service/IVdspService.cpp:343-394 | An open keeps the table consistent, the count conserved and the device open exactly with opens, exactly unless it succeeds for the client whose handler waits, which it does exactly if it asks for the type of the device; an error changes nothing; other clients and an open device stay as they are. The result is that of linkToDeath if a new client cannot be linked, -1 if no device is open and none opens, -2 if one of another type is open, and else 0 |
| ServiceCore.ClosedOk | Cadence/xrp/vdsp-service/IVdspService.cpp:395-439 | A close keeps the same, exactly unless it succeeds for the client whose handler waits, which it does exactly unless only the handler holds the device open and calls are in flight; it changes no other client and releases the device only with no call in flight. The result is -3 for a client without entry, -2 for the only open while calls are in flight, and else 0 |
| ServiceCore.ClosedLoads | Cadence/xrp/vdsp-service/IVdspService.cpp:835-864 | A close never adds to the total of a library, and changes no total unless it is a last close with load records left |
| ServiceCore.AddLoadTotal | Cadence/xrp/vdsp-service/IVdspService.cpp:711-738 | Recording a load adds one to the total of this library, none to others |
| ServiceCore.DecLoadTotal | Cadence/xrp/vdsp-service/IVdspService.cpp:739-768 | Recording an unload takes one from the total of this library, none from others |
| ServiceCore.DecLoadOk | Cadence/xrp/vdsp-service/IVdspService.cpp:739-768 | Recording an unload keeps the table consistent exactly if the record was not zero, which it is only in the entry of the client whose handler waits |
| ServiceCore.RoundsEnd | Cadence/xrp/vdsp-service/IVdspService.cpp:673-678 | Once the client has no entry the repeated calls of closeXrpDevice_NoLock and ClearClientInfo change nothing |
| ServiceCore.GivenBackBuries | Cadence/xrp/vdsp-service/IVdspService.cpp:465-485 | If the client has the opens that were found, the first call gives all of them back and the rest changes nothing |
| ServiceCore.DeathBegunOk | Cadence/xrp/vdsp-service/IVdspService.cpp:659-685 | The first region of the death handler keeps the table consistent, spares other clients, and either buries the client or leaves its zeroed entry with the count that the window requires |
| ServiceCore.DeathResumedOk | Cadence/xrp/vdsp-service/IVdspService.cpp:453-485 | A later region ends the waiting exactly if mworking is 0, and then buries the client, if it still has the opens that were found |
| ServiceTables.IncLibLaws | Cadence/xrp/vdsp-service/IVdspService.cpp:711-738 | Incrementing keeps one record for each library and adds one to exactly this count |
| ServiceTables.DecLibLaws | Cadence/xrp/vdsp-service/IVdspService.cpp:739-768 | Decrementing takes one from exactly this count, and keeps one record for each library with a count that is not negative exactly if the count was not zero |
| ServiceTables.AddOpenLaws | Cadence/xrp/vdsp-service/IVdspService.cpp:803-834 | Adding an open adds one to this client and to the sum, keeps one entry for each client and all load records |
| ServiceTables.DecOpenLaws | Cadence/xrp/vdsp-service/IVdspService.cpp:835-864 | Removing an open takes one from this client and from the sum and keeps all else, except that the last one erases the load records |
| ServiceTables.DecTimesErases | Cadence/xrp/vdsp-service/IVdspService.cpp:481-485 | As many decrements as a client has opens erase its entry and nothing else |
| ServiceTables.WithoutLaws | Cadence/xrp/vdsp-service/IVdspService.cpp:865-892 | Erasing an entry takes its opens from the sum and leaves all other clients alone |
| ServiceInvariant.BaseKeeps | Cadence/xrp/vdsp-service/IVdspService.cpp:343-892 | Every step of every thread, calls of dead clients included, keeps the books on calls in flight, the owners of the locks, one entry for each client, and that the dead stay gone |
| ServiceInvariant.CleanStepKeeps | Cadence/xrp/vdsp-service/IVdspService.cpp:343-685 | Every step keeps the whole service invariant, unless it is an open, close or unload of the client whose handler waits that changes the table |
| ServiceInvariant.RunBase | Cadence/xrp/vdsp-service/IVdspService.cpp:343-892 | The first of these invariants holds in every state of every run |
| ServiceInvariant.CleanRunKeeps | Cadence/xrp/vdsp-service/IVdspService.cpp:343-685 | The whole invariant holds in every state of every run without such steps |
| ServiceLate.StepKeepsExactly | Cadence/xrp/vdsp-service/IVdspService.cpp:452-460 | Such a step breaks the conservation of opens or leaves a negative load count at once, any other step keeps the invariant |
| ServiceLate.SoundExactly | Cadence/xrp/vdsp-service/IVdspService.cpp:452-460 | Over all runs: opens are conserved, no load count is negative and all that clients have loaded is in the DSP in every state, exactly if no call of the client whose handler waits changes the table: no open of the type of the device, no close that is not refused because calls are in flight, no unload of a library whose record the handler has set to zero |
| ServiceLate.LateUnloadEvicts | Cadence/xrp/vdsp-service/IVdspService.cpp:610-623 | Such an unload has the DSP drop the library exactly if the other clients have it loaded once; if they have not loaded it, the next load of it is recorded without the DSP being told |
| ServiceRuns.LateUnloadHappens | Cadence/xrp/vdsp-service/IVdspService.cpp:594-632 | A run in which an unload of the dead client takes a library out of the DSP that another client has loaded |
| ServiceRuns.LateLoadHappens | Cadence/xrp/vdsp-service/IVdspService.cpp:555-593 | A run of clean and tidy steps after which the end of the handler, the first step that is not tidy, leaves a library in the DSP that a late load of the dead client put there and nobody has loaded |
| ServiceRuns.LateOpenHappens | Cadence/xrp/vdsp-service/IVdspService.cpp:343-394 | A run in which an open of the dead client leaves the device open with no client |
| ServiceRuns.LateCloseHappens | Cadence/xrp/vdsp-service/IVdspService.cpp:395-439 | A run in which a close of the dead client releases the device under its handler and leaves mopen_count at -1 |
| ServiceTheorems.OpensConserved | Cadence/xrp/vdsp-service/IVdspService.cpp:343-486 | In clean runs, those without such steps: mopen_count is the sum of the clients' counts, or while a death handler waits that sum less the dead client's count plus one; the device is open exactly when mopen_count is positive, which is exactly when some client is left |
| ServiceTheorems.SessionsHaveTheDevicesType | Cadence/xrp/vdsp-service/IVdspService.cpp:381-389 | In clean runs: all opens in force asked for the type the device has, and a client has as many as its count says |
| ServiceDevice.StepDevice | Cadence/xrp/vdsp-service/IVdspService.cpp:343-685 | In all runs: every step keeps the entries open and the type with the device, and changes the device only if it is an open that finds mopen_count 0 and gets past linkToDeath, or a close or death handler while no call is in flight |
| ServiceDevice.DeviceHeld | Cadence/xrp/vdsp-service/IVdspService.cpp:354-486 | In all runs, the sleep of the death handler included: while a send, load, unload or power hint is in flight the device changes exactly by an open that finds mopen_count 0, gets past linkToDeath and has a device to lose or to gain, and becomes the newly opened one or none; it is never released under a call. In clean runs no open finds that, and the device is open and the one the call was admitted on |
| ServiceDevice.CallsKeptExactly | Cadence/xrp/vdsp-service/IVdspService.cpp:498-505 | A step keeps every call in flight on the device it was admitted on, and that device open, exactly if it neither admits a call while no device is open, which the test of mopen_count and of the entry does not exclude, nor is such an open under a call |
| ServiceDevice.CallsHeldExactly | Cadence/xrp/vdsp-service/IVdspService.cpp:498-540 | Over all runs: every call in flight has, in every state, the device it was admitted on and that device is open, exactly if no step is of these two kinds |
| ServiceDevice.FailedOpenRestores | Cadence/xrp/vdsp-service/IVdspService.cpp:354-389 | In all runs: an open that reports an error leaves tables, counters, device, type and sessions as they were exactly if it did not find a device open at mopen_count 0; such a device and its type it forgets, and nothing else changes. In clean runs there is none |
| ServiceRuns.BlindSendHappens | Cadence/xrp/vdsp-service/IVdspService.cpp:498-540 | A run in which two late closes of a dead client and its handler leave mopen_count at -1 with no device, and the send of another client is let through to the DSP without one |
| ServiceRuns.SwapHappens | Cadence/xrp/vdsp-service/IVdspService.cpp:354-366 | A run in which mopen_count is below the opens in the table and an open that finds it 0 replaces the device under a send in flight |
| ServiceTheorems.WorkingExact | Cadence/xrp/vdsp-service/IVdspService.cpp:504-552 | In all runs mworking is the number of calls in flight plus the number of sends ever lost to a map failure |
| ServiceTheorems.TableIsUnique | Cadence/xrp/vdsp-service/IVdspService.cpp:687-909 | In all runs no client has two entries and no entry two records of a library, which the loops of ServiceClass need |
| ServiceTheorems.CloseReleasesExactly | Cadence/xrp/vdsp-service/IVdspService.cpp:400-429 | In all runs: a close releases an open device exactly if its client has an open, mopen_count is 1, no call is in flight and no send was ever lost to a map failure; in clean runs that is when it gives back the only open there is |
| ServiceTheorems.LostWedges | Cadence/xrp/vdsp-service/IVdspService.cpp:511-531 | In all runs: after one send lost to a map failure a death handler that waits for calls in flight waits for ever, and the device stays unless an open at mopen_count 0 replaces it; in clean runs it stays open for ever |
| ServiceRuns.LostHappens | Cadence/xrp/vdsp-service/IVdspService.cpp:511-516 | A run reaches such a state with no call in flight |
| ServiceTheorems.LoadedIsResident | Cadence/xrp/vdsp-service/IVdspService.cpp:555-632 | In clean runs: a library with a positive total, so every library some client has loaded, is in the DSP, under any interleaving of loads, unloads, closes and deaths |
| ServiceAccounts.LoadCall | Cadence/xrp/vdsp-service/IVdspService.cpp:560-591 | A load of a client with the device open ends at once and without error exactly if some client has the library loaded, and then its count for this client goes up by one and no other count moves; otherwise it goes on to the DSP; a client without the device open is refused |
| ServiceAccounts.LoadEnd | Cadence/xrp/vdsp-service/IVdspService.cpp:576-591 | When the DSP has answered, the count goes up by one exactly if it succeeded and the client still has an entry, and no other count moves |
| ServiceAccounts.UnloadCall | Cadence/xrp/vdsp-service/IVdspService.cpp:600-628 | A clean unload goes through exactly if its client has the library loaded, and then its count goes down by one and no other count moves; it goes on to the DSP exactly if then nobody has it loaded |
| ServiceAccounts.AccountsKeptExactly | Cadence/xrp/vdsp-service/IVdspService.cpp:555-632 | With an account, for each client and library, of the loads that returned 0 less the unloads that went through, ended by the last close and by the death handler: every clean step keeps all records equal to the accounts, exactly unless it is a load that returns 0 after its client has closed |
| ServiceAccounts.AccountsExactly | Cadence/xrp/vdsp-service/IVdspService.cpp:555-632 | Over all clean runs: in every state all records equal the accounts, exactly if no load ends after its client has closed |
| ServiceAccounts.LoadedByAccount | Cadence/xrp/vdsp-service/IVdspService.cpp:555-632 | In such runs what a client has loaded by the results of its own calls is in the DSP |
| ServiceRuns.UnrecordedHappens | Cadence/xrp/vdsp-service/IVdspService.cpp:576-591 | A run in which a client closes while its load is at the DSP; the load returns 0, is recorded for nobody, and its library stays in the DSP |
| ServiceTheorems.HandlerSparesOthers | Cadence/xrp/vdsp-service/IVdspService.cpp:659-709 | In all runs: no step of a death handler changes another client's opens, loads or sessions |
| ServiceTheorems.HandlerCleansUp | Cadence/xrp/vdsp-service/IVdspService.cpp:659-685 | In all runs: when a death handler ends, the dead client has no entry and no session and the handler holds no lock; in clean runs mopen_count is then the sum over the other clients and the device is closed exactly if there are none |
| ServiceTheorems.DeadStaysGone | Cadence/xrp/vdsp-service/IVdspService.cpp:803-834 | In all runs: a dead client never gets an entry again, and none of its calls is admitted |
| ServiceTheorems.DeadlockIsForever | Cadence/xrp/vdsp-service/IVdspService.cpp:456-460 | Two death handlers of which one waits for mLoadLock and the other holds it and waits for mPowerHintLock never move again |
| ServiceRuns.DeadlockHappens | Cadence/xrp/vdsp-service/IVdspService.cpp:659-665 | A run reaches this deadlock for any two different clients |
| ServiceTheorems.NoOtherDeadlock | Cadence/xrp/vdsp-service/IVdspService.cpp:343-685 | In every other reachable state, for every thread inside a call, the thread at most two locks away that holds what it needs can go on |
| ServiceTidy.TidyStepExactly | Cadence/xrp/vdsp-service/IVdspService.cpp:555-709 | A clean step keeps every library in the DSP counted, but for the one the owner of mLoadLock is between telling the DSP about and recording, exactly if it is tidy: a last close or a death handler that erases the only load records of a library finds that library gone from the DSP, a load is recorded for a client that still has an entry, and the DSP does unload |
| ServiceTidy.AccountedExactly | Cadence/xrp/vdsp-service/IVdspService.cpp:555-709 | Over all clean runs: every library in the DSP is so accounted for in every state, exactly if every step is tidy |
| ServiceTidy.ResidentExactlyLoaded | Cadence/xrp/vdsp-service/IVdspService.cpp:555-709 | In such runs, whenever mLoadLock is free a library is in the DSP exactly if some client has it loaded |
| Namespace.CompareLaws | Cadence/xrp/xrp-common/src/xrp_ns.c:30-33 | Bytewise comparison is 0 exactly on equal identifiers and antisymmetric |
| Namespace.CompareTransitive | Cadence/xrp/xrp-common/src/xrp_ns.c:30-33 | Bytewise comparison is transitive, strictly if one step is strict |
| Namespace.CommandMap.Find | Cadence/xrp/xrp-common/src/xrp_ns.c:99-132 | The search returns the place of the identifier: all entries before it are smaller, none from it on is; in at most ceil(log2 n) turns of its loop |
| Namespace.HalvingsIsLog | Cadence/xrp/xrp-common/src/xrp_ns.c:109-119 | The bound on the turns is the logarithm to base 2, rounded up |
| Namespace.PlaceFinds | Cadence/xrp/xrp-common/src/xrp_ns.c:171-174 | An identifier is in the table exactly if it is at its place |
| Namespace.InsertedMap | Cadence/xrp/xrp-common/src/xrp_ns.c:134-154 | Inserting in order adds the entry to the map and changes no other |
| Namespace.DeletedMap | Cadence/xrp/xrp-common/src/xrp_ns.c:156-164 | Removing takes exactly this entry from the map |
| Namespace.CommandMap.Insert | Cadence/xrp/xrp-common/src/xrp_ns.c:134-154 | A gap is opened at the place, the array growing to (size + 1) * 2 when it is full; fails exactly if it is full and cannot grow |
| Namespace.CommandMap.Remove | Cadence/xrp/xrp-common/src/xrp_ns.c:156-164 | The entry at the place is removed, the others close up in order |
| Namespace.CommandMap.Register | Cadence/xrp/xrp-common/src/xrp_ns.c:166-187 | Succeeds exactly if the identifier is absent and memory suffices; then the map has the new entry, else nothing changes; the table stays sorted and within its capacity |
| Namespace.CommandMap.Unregister | Cadence/xrp/xrp-common/src/xrp_ns.c:189-201 | Succeeds exactly if the identifier is present, and removes exactly it |
| Namespace.SortedUnique | Cadence/xrp/xrp-common/src/xrp_ns.c:99-201 | A sorted table is determined by the map it stands for |
| Namespace.RegisterAll | Cadence/xrp/xrp-common/src/xrp_ns.c:166-187 | Identifiers that are not in the table are registered one after the other; every call succeeds and the table has them besides what it had |
| Namespace.UnregisterAll | Cadence/xrp/xrp-common/src/xrp_ns.c:189-201 | Unregistering identifiers in any order succeeds each time and leaves what was there besides them |
| Namespace.RegisterUnregisterRestores | Cadence/xrp/xrp-common/src/xrp_ns.c:166-201 | Registering fresh identifiers and unregistering them in any order, call by call: every call succeeds and the table is as it was |
| RingBuffer.StoredExtend | Cadence/xrp/xrp-common/src/xrp_rb_file.c:47-52 | Publishing the bytes behind write appends exactly them to what is stored, across the wrap |
| RingBuffer.StoredAdvance | Cadence/xrp/xrp-host/inc/xrp_ring_buffer.h:32-38 | A reader that advances takes the stored bytes from the front, in order |
| RingBuffer.RoomFits | Cadence/xrp/xrp-common/src/xrp_rb_file.c:34-40 | What the writer fills in one go stays inside the buffer and leaves one slot free; it is nothing only if the buffer is full |
| RingBuffer.FillKeepsStored | Cadence/xrp/xrp-common/src/xrp_rb_file.c:45-45 | The byte the writer fills is none the reader has still to take, even with an outdated snapshot of read |
| RingBuffer.Ring.WriteSome | Cadence/xrp/xrp-common/src/xrp_rb_file.c:27-53 | With the reader moving between any two accesses, what was accepted is always what was consumed and what is stored, in order; something is accepted unless the buffer was full |
| RingBuffer.Ring.Write | Cadence/xrp/xrp-common/src/xrp_rb_file.c:55-71 | The accepted bytes are a prefix of the input, at least what fitted at the start, and exactly min(size, free) if the reader is idle |
| BusyTime.Accounting.Begin | Cadence/xrp/vdsp-service/dvfs/vdsp_dvfs.cpp:120-146 | Beginning work keeps the counters in agreement with the history of work |
| BusyTime.Accounting.End | Cadence/xrp/vdsp-service/dvfs/vdsp_dvfs.cpp:147-164 | Ending work keeps the counters in agreement with the history of work |
| BusyTime.Accounting.Sample | Cadence/xrp/vdsp-service/dvfs/vdsp_dvfs.cpp:264-282 | A sample reports exactly the time since the last one during which work was in progress, at most the time elapsed, in percent between 0 and 100, and adds it to the total so far |
| BusyTime.BusyAdditive | Cadence/xrp/vdsp-service/dvfs/vdsp_dvfs.cpp:264-282 | Busy times of consecutive windows add up |
| BusyTime.BusyBounded | Cadence/xrp/vdsp-service/dvfs/vdsp_dvfs.cpp:275-275 | Busy time is at most the length of the window |
| BusyTime.Play | Cadence/xrp/vdsp-service/dvfs/vdsp_dvfs.cpp:120-282 | For any sequence of begins, ends and samples on a clock that does not go back, the totals of the samples add up to the busy time of the whole period until the last sample |
| Parcels.SignedRoundTrip | Cadence/xrp/vdsp-service/IVdspService.cpp:55-55 | A 32-bit value survives the conversion to int32_t and back, and the two differ by a multiple of 2^32 |
| Parcels.Encode | Cadence/xrp/vdsp-service/IVdspService.cpp:47-197 | The proxy writes the interface token, the client and the fields of the call in this order |
| Parcels.EncodeBuffers | Cadence/xrp/vdsp-service/IVdspService.cpp:109-123 | A buffer list is written as its flag, its length and four fields for each buffer |
| Parcels.OnTransact | Cadence/xrp/vdsp-service/IVdspService.cpp:209-341 | From a parcel of the proxy the service recovers the client and the call, up to the fields the wire drops, and consumes the whole parcel, exactly unless there is no memory for its list of buffers; other parcels without the token are refused |
| Parcels.Transact | Cadence/xrp/vdsp-service/IVdspService.cpp:47-341 | Through proxy and service every field arrives in its place: the kind of call and the client; kind, level and acquire, names; nsid and priority; presence of input and output with their descriptors, sizes and address; and for a list of buffers that is not empty its length and the descriptor, size, address and flag of each in order |
| Parcels.DecodeSend | Cadence/xrp/vdsp-service/IVdspService.cpp:231-294 | The send request is recovered for buffer lists of any length, an empty list as none |
| Parcels.SendDetermines | Cadence/xrp/vdsp-service/IVdspService.cpp:83-135 | The wire format is unambiguous: sends that make the same items are the same up to the dropped fields |
| Bmp.Bytes32RoundTrip | Cadence/xrp/systest-cases/depth_bokeh/bmp_io.cpp:829-1027 | A 32-bit value is written least byte first and read back |
| Bmp.WriteLong | Cadence/xrp/systest-cases/depth_bokeh/bmp_io.cpp:944-983 | write_u_long_int appends the four bytes of its argument |
| Bmp.ReadLong | Cadence/xrp/systest-cases/depth_bokeh/bmp_io.cpp:829-886 | read_u_long_int returns the little-endian value of the next four bytes and fails exactly at the end of the file |
| Bmp.WriteHeader | Cadence/xrp/systest-cases/depth_bokeh/bmp_io.cpp:597-688 | The header written has the fields of the format, 54 bytes in all |
| Bmp.ReadHeader | Cadence/xrp/systest-cases/depth_bokeh/bmp_io.cpp:207-347 | Succeeds exactly on files of at least 54 bytes that begin with BM, and returns width, height and data offset from their places |
| Bmp.HeaderFields | Cadence/xrp/systest-cases/depth_bokeh/bmp_io.cpp:597-688 | In the file written the size 54 + 3 * x * y, the offset 54, the header size 40, width, height, one plane and 24 bits are at their places, and the two reserved and the six last fields are 0 |
| Bmp.ScanlineAligned | Cadence/xrp/systest-cases/depth_bokeh/bmp_io.cpp:570-571 | A scanline is the bytes of a row padded to the next multiple of 4 |
| Bmp.FileLength | Cadence/xrp/systest-cases/depth_bokeh/bmp_io.cpp:537-688 | The file has 54 bytes and one scanline for each row |
| Bmp.PixelInFile | Cadence/xrp/systest-cases/depth_bokeh/bmp_io.cpp:577-591 | The bytes of a pixel are in its row, counted from the bottom, blue first |
| Bmp.WriteData | Cadence/xrp/systest-cases/depth_bokeh/bmp_io.cpp:537-594 | The rows are written from the bottom up, each padded with zeros |
| Bmp.ReadData | Cadence/xrp/systest-cases/depth_bokeh/bmp_io.cpp:128-204 | For any file: succeeds exactly if the bytes needed follow, (ysize - 1) * scanline + 3 * xsize of them, less one if xsize is above 1, and, for more than one row, the red array does not start out with EOF; then every entry is its byte of the file |
| Bmp.OnlyLastRedMissing | Cadence/xrp/systest-cases/depth_bokeh/bmp_io.cpp:193-197 | In a file that is accepted no byte is missing, except that the red byte at the end of the first row, entry xsize - 1, is EOF exactly if the file has one byte less than the pixels need and xsize is above 1 |
| Bmp.WriteImage | Cadence/xrp/systest-cases/depth_bokeh/bmp_io.cpp:466-534 | The file written is header and rows |
| Bmp.ReadImage | Cadence/xrp/systest-cases/depth_bokeh/bmp_io.cpp:12-124 | Reading a file that was written returns the same dimensions and the same three planes and reads it to its end, exactly if the size of a plane in bytes fits an int; otherwise there is no room for the planes |
| Yuv.SemiToPlanar | Cadence/xrp/systest-cases/hdr/util.cpp:111-131 | The semi-planar image is converted to planar, sample by sample |
| Yuv.PlanarToSemi | Cadence/xrp/systest-cases/hdr/util.cpp:133-158 | The planar image is converted to semi-planar, sample by sample |
| Yuv.ConversionsInverse | Cadence/xrp/systest-cases/hdr/util.cpp:111-158 | The two conversions undo each other, in both orders |
| Yuv.Flip | Cadence/xrp/systest-cases/depth_bokeh/ImageFormat_Conversion.cpp:187-237 | In each of the three planes the pixel in row i and column j is that of the source in row height - 1 - i if mirror is set and i else, and in column width - 1 - j if flip is set and j else, whatever the index scheme of the loop; with half the sizes for the two chroma planes |
| Yuv.ImageCompose | Cadence/xrp/systest-cases/depth_bokeh/ImageFormat_Conversion.cpp:187-237 | Two flips in a row flip along the axes where exactly one of them does |
| Yuv.FlipInvolution | Cadence/xrp/systest-cases/depth_bokeh/ImageFormat_Conversion.cpp:187-237 | Flipping twice with the same flags restores the image |

## Left out

- Thread creation that fails in `xrp_queue_init`: the source does not check it.
- The write through NULL at `xrp_host_common.c` line 86 after a device buffer could not be created: modelled as returning NULL.
- Builds in which `xrp_atomic.h` makes `_Atomic` empty: counts are taken to change atomically.
- Branches without `USE_SPRD_MODE` and code under `#if 0`.
- The outcome of a DSP command, of ioctl, mmap, ion allocation, `/dev` opens, malloc and linkToDeath: arbitrary answers.
- `xrp_buffer_get_info` and `xrp_buffer_group_get_info`: they read one field each.
- The sequences of `xrp_host_common.c` and `xrp_linux.c` around these parts, and all interleavings, are steps over values: pointers between objects are names, so aliasing is what equal names say.
- Access flags of buffers and group records: passed through unread.
- Fairness of the scheduler: assumed where `HostProgress` speaks of infinite runs, in the weak form that a thread that can always move does.
- Host calls are made by clients that hold a reference to what they name, as the API demands.
- Clients other than the one that runs `sprd_vdsp_send_command`: `SendCommand.CommandIsNeutral` takes them to give back what they are given meanwhile, to map nothing, to leave older groups alone and to ask for events; what they do otherwise is their own trace.
- CommandRuns.CommandIsPushedOnce, and the other members of `CommandRuns`: for groups and queues that only the client that made them uses. The API gives them to no other client, but would let one that had the pointer use them.
- A linkToDeath on a dead client is taken to fail.
- Levels of power hints: `powerHint` is modelled as a call in flight, `ReleaseCilentPowerHint` and the counters it undoes are not.
- What becomes of the service after an unclean step, beyond calls in flight, their device, failed opens, locks, entries and the dead: only the runs of `ServiceRuns`.
- The device of a call is the one at its admission. The source reads `mDevice` again after it has let go of `mLock` (lines 540, 577, 622 and 648): the same as long as `ServiceDevice.CallsHeldExactly` has it held, possibly another one otherwise.
- Threads of the service are steps of `ServiceSteps`, not Dafny threads; the methods of `ServiceClass` are the regions.
- Malformed parcels: a read of the wrong kind of item returns 0 and does not advance, where a real parcel would reinterpret bytes.
- File descriptors on the wire stand for the files they refer to; their numbers change in transit.
- RingBuffer.Ring.Write: the reader is an environment that only moves `read` up to `write`; memory ordering between processors is not modelled.
- BusyTime.Accounting.Sample: requires time to have passed since the last sample, since the source divides by it, and takes the clock reads of one call as one instant.
- Bmp.ReadImage: for files that `bmp_write` made of images whose dimensions and size field fit a non-negative int. Where the planes have no room the source goes on and writes through NULL; the model stops there. `calloc` of a possible size is taken to succeed.
- Image conversions with odd width or height: a 4:2:0 image has none.
- The client layer `vdsp_interface.cpp`, frequency selection, colour conversion, test drivers and DSP start-up code.
