# Far-memory swap: verified model

A Dafny model of a remote-swap system: an RDMA driver that stores and loads swapped
pages in a server's memory, the kernel fault path and reclaim worker that drive it, the
server, the connection setup between the two, and two small numeric programs from the
evaluation suite. `dafny verify dfyconfig.toml` checks everything.

## How it is organised

- `Wrappers`: the type of a value that may be missing.
- `QueueTable`: the flat array of three queues per CPU.
- `PageStore`: the asynchronous page store as a state machine. Each step is one atomic
  action of a caller (check back pressure, map, increment `pending`, post, return), of the
  NIC, of a completion callback (unmap, set up to date, unlock, decrement, free), of
  `swapin_readahead`, or of the rest of the kernel. Any number of CPUs interleave; the NIC
  executes posted work in any order; callbacks may run at any time, which includes all the
  times at which somebody polls under `cq_lock`.
- `Accounting`: what every run keeps, with refused posts and failed completions included.
- `Coherence`, `Refinement`: under the kernel's rules for pages and slots, every run is a
  sequential history of the DRAM backend.
- `FaultPath`, `Backpressure`, `Draining`: the fault path's promise, the exact reach of
  `BUG_ON(inflight > QP_MAX_SEND_WR)`, and when a queue can be drained at all.
- `Driver`: the driver's functions and `swapin_readahead` as methods that run on the same
  state while everybody else keeps taking steps in between; only getting a page and starting
  its load are taken together.
- `Addressing`, `DramBackend`: machine arithmetic of buffer sizes and offsets, the flat
  buffer as slots, and the DRAM backend over a byte array.
- `CmSetup`, `FarMemoryServer`, `Handshake`: client setup and rollback, the server with both
  event loops of its `main`, and both parties composed, the client's rollback included.
- `Reclaim`: `try_charge`, `mem_cgroup_handle_over_high`, `memory_high_write` and
  `high_work_func` of one cgroup.
- `PerfModel`, `StreamCheck`: the polynomial performance model and the STREAM validator,
  over exact reals.

Foreign calls (verbs, connection manager, DMA, allocation, reclaim) appear as their
results: outcomes carried by events, or arbitrary choices within what the callee promises.

## Properties that turned out to need a condition

- That usage above the limit always has the worker queued is false even if every single
  charge is at most `MAX_RECLAIM_OFFLOAD` pages: 2049 charges of one page, all made before any
  check, each find an excess that they leave to their own thread. It holds exactly while at
  most 2048 charged pages await their check (`Reclaim.WorkerScheduledIffFewUnchecked`). The
  charging threads then answer for the excess (`Reclaim.EveryRunAnswered`); usage is left above
  the limit with nobody to lower it exactly if more than 2048 pages can race and either a
  single charge can exceed 2048 pages or an over-high reclaim can fall short
  (`Reclaim.NeverStrandedIff`).
- The server's connect loop fetches an event before it looks at a slot, and a disconnect or an
  unknown event ends a slot's turn too. For every list of events it gets through exactly if
  there are events, one after the other, to end each slot's turn, by connecting that slot or by
  breaking the loop, and no handler dies (`FarMemoryServer.ConnectsIff`). Without breaking
  events these are slots connected in time (`FarMemoryServer.ConnectsIffInTime`): if
  establishments arrive out of order the loop can wait for one more event with every slot
  connected, and a further request then kills it there (`FarMemoryServer.OutOfOrderBlocks`).
- The server's `main` is over exactly if more connections were requested than it has slots,
  since `queue_ctr` never goes back, or if any disconnect or unknown event comes once all
  turns could end (`FarMemoryServer.MainEndsIff`). With requests for its slots only, it dies
  exactly if unknown events take it through both loops before the first request
  (`FarMemoryServer.DiesIffOnlyUnknown`).
- A client that waits for the memory region gets it exactly unless the server's `main` was over
  before it learned of connection 0 (`Handshake.WaitingClientIsServed`).
- A refused post is counted in `pending` for good, so its queue can never be drained again
  (`Draining.DrainableIffNothingRefused`).
- A fault that finds its page in the swap cache may return it still locked
  (`FaultPath.CachedFaultMayReturnLockedPage`): exactly if a load of it is under way on another
  queue than the captured CPU's sync queue or not yet counted there
  (`FaultPath.FaultReturnsUnreadyIff`).
- A queue whose setup fails leaks its queue pair exactly if it ever got one, and a completion
  queue exactly if it got more of them than handlers failed in a later verbs call
  (`CmSetup.FailedQueueLeaksIff`). A completion queue is
  freed once per handler that failed so, hence at most once only in protocol order
  (`CmSetup.HandlerCallsCounted`, `CmSetup.CqFreedAtMostOnce`).

## Model

| member | source | states |
|---|---|---|
| QueueTable.QueueIndexIsBijection | code/drivers/fastswap_rdma.c:781-810 | (cpu, type) to index is a bijection onto 0..3*numcpus; get_queue_type inverts it; sync reads, async reads and writes have a third of the table each, in CPU order |
| PageStore.ApplyKeepsShape | code/drivers/fastswap_rdma.c:795-810 | every step leaves each op on an existing queue of the type its kind demands, with page and slot in range |
| Accounting.EveryRunAccounted | code/drivers/fastswap_rdma.c:431-498 | in every run, refused posts and bad completions included: pending is the requests in flight plus the refused posts of the queue; each request is unmapped and freed once and each load's page unlocked once, exactly when its callback gets there |
| Accounting.StoreReturnsCompleted | code/drivers/fastswap_rdma.c:696-708 | a sswap_rdma_write that returns has had its own request completed, whoever else uses the queue |
| Accounting.WritePendingBoundedByCalls | code/drivers/fastswap_rdma.c:633-708 | in every reachable state a write queue's pending is at most the number of sswap_rdma_write calls in progress on it |
| Accounting.NothingPending | code/drivers/fastswap_rdma.c:633-645 | reading pending as zero means no request of the queue is in flight and none was refused |
| Coherence.EveryRunCoherent | code/drivers/fastswap_rdma.c:431-498 | in every disciplined run active operations own their pages, loads keep theirs locked and not up to date until the callback, landed stores are in far memory, and the log agrees with it |
| Refinement.RdmaRefinesDram | code/drivers/fastswap_rdma.c:633-777 | for every interleaving in which operations on one slot overlap only if both are loads, the completed operations form a history of the DRAM backend, each recorded once, and far memory holds what the DRAM backend would wherever no store is under way |
| Refinement.LoadSeesLatestStore | code/drivers/fastswap_dram.c:12-51 | each completed load delivers the contents of the last completed store to its slot, or the initial contents if there was none |
| Refinement.EveryRunLogged | code/drivers/fastswap_rdma.c:448-465 | the log holds every completed operation exactly once with its slot and, for stores, its contents |
| Refinement.StoreRecordsCallTimeContents | code/drivers/fastswap_rdma.c:543-575 | what a completed store is recorded with is what its page held when the call was made |
| Refinement.LoadPageGuarded | code/drivers/fastswap_rdma.c:671-694 | until its callback, a load's page is locked, not up to date, and used by no other operation |
| FaultPath.OwnFaultReturnsReadyPage | code/kernel/kernel.patch:437-471 | a swapin_readahead that issued the read of its page returns it up to date and unlocked, whatever CPU it ends on |
| FaultPath.CachedFaultMayReturnLockedPage | code/kernel/kernel.patch:408-419 | without its own read it may return a page still locked: a concrete run |
| FaultPath.FaultReturnsUnreadyIff | code/kernel/kernel.patch:437-471 | in every disciplined run, a load of the returned page is unfinished at the fault's return if and only if it is under way on another queue than the captured sync queue or not yet counted there; the page is then locked and the load is not the fault's own |
| FaultPath.EveryRunDelivers | code/kernel/kernel.patch:437-471 | every fault's own load sits on the sync queue of the captured CPU, and its delivered page stays ready until the fault returns |
| Backpressure.PendingBounded | code/drivers/fastswap_rdma.c:655-659 | with at most k producers between check and increment, pending stays at or below 4087 + k on write and 4095 + k on read queues |
| Backpressure.NoBugWithinBound | code/drivers/fastswap_rdma.c:681-685 | BUG_ON does not fire with at most 9 producers on a write queue or 1 on a read queue |
| Backpressure.OvershootReached | code/drivers/fastswap_rdma.c:655-659 | for every k the bound is reached by a disciplined run with a further call in the loop |
| Backpressure.BugReachableIffTooManyProducers | code/drivers/fastswap_rdma.c:655-685 | BUG_ON is reachable if and only if more producers than that are possible |
| Draining.DrainableIffNothingRefused | code/drivers/fastswap_rdma.c:491-497 | from any reachable state some continuation empties a queue if and only if none of its posts was refused |
| Draining.CanDrain | code/drivers/fastswap_rdma.c:633-645 | accepted posts of calls already counted, NIC and callback steps alone can bring a queue without refused posts to zero |
| Draining.RdmaQueue.PostRdma | code/drivers/fastswap_rdma.c:491-497 | pending grows whether or not the post is accepted |
| Draining.RdmaQueue.ProcessCqDirect | code/drivers/fastswap_rdma.c:633-645 | runs n callbacks and returns n; each decrements pending |
| Draining.RdmaQueue.PollTarget | code/drivers/fastswap_rdma.c:618-631 | ends, with target completions or an empty queue, also after refused posts if the NIC holds target requests; the result is how many requests retired |
| Draining.RdmaQueue.DrainQueue | code/drivers/fastswap_rdma.c:633-645 | ends, with every request retired, when the NIC keeps making progress |
| Draining.RdmaQueue.Add | code/drivers/fastswap_rdma.c:647-694 | with one producer: below 4088 or 4096 nothing is waited for; at that limit the back-pressure loop ends once 2048 writes or 8 reads have completed, its BUG_ON holds and the request fits; after refused posts too, unless the queue is full and the NIC holds less than a batch |
| Driver.Machine.WaitForRoom | code/drivers/fastswap_rdma.c:655-685 | the back-pressure loop under interference: returns only with pending read below 4088 or 4096; if it had to wait, 2048 writes or 8 reads completed or the queue was seen empty |
| Driver.Machine.Submit | code/drivers/fastswap_rdma.c:647-694 | write_queue_add and begin_read under interference: afterwards the request is posted and nothing else of the thread has moved |
| Driver.Machine.PollTarget | code/drivers/fastswap_rdma.c:618-631 | under interference: stops with enough completions or an empty queue, and counts no more than the requests of the queue that completed meanwhile |
| Driver.Machine.DrainQueue | code/drivers/fastswap_rdma.c:633-645 | under interference: returns only with pending read as zero |
| Driver.Machine.Write | code/drivers/fastswap_rdma.c:696-708 | on return the request has retired, far memory and the DRAM specification hold the contents the page had at the call, and the log ends with this store |
| Driver.Machine.Read | code/drivers/fastswap_rdma.c:743-770 | on return the load is posted on this CPU's queue and its page stays locked until delivered |
| Driver.Machine.PollLoad | code/drivers/fastswap_rdma.c:773-777 | afterwards no load of that CPU's sync queue is in flight |
| Driver.Machine.ReadSwapCacheSync | code/kernel/kernel.patch:408-419 | the fault's load, if any, is posted on the captured CPU's sync queue |
| Driver.Machine.ReadWindow | code/kernel/kernel.patch:443-464 | it asks for exactly the slots from first to last without the header and the faulting one; the loads begun are, in slot order, async loads of exactly those slots for which a page was to be had and no store was under way when asked; the fault's own read and captured CPU are left alone |
| Driver.Machine.SwapinReadahead | code/kernel/kernel.patch:437-471 | a page it read, on the captured CPU's sync queue, is up to date and unlocked on return, under any interference and migration, and its window was dealt with as above |
| Addressing.BufferSizeExact | code/farmemserver/rmserver.c:73-82 | BUFFER_SIZE is multiplier * 2^30 for every positive 32-bit multiplier, no step overflowing |
| Addressing.PagesTile | code/drivers/fastswap.c:30-63 | for all page ids: the offset is in range exactly if the page id modulo 2^52 is below size / 4096; two page ids share a byte exactly if they agree modulo 2^52, which below 2^52 means that they are equal |
| Addressing.OffsetExact | code/drivers/fastswap.c:30-63 | the shifted offset is exact exactly for page ids below 2^52 and wraps above |
| Addressing.WritePageIsSlotUpdate | code/drivers/fastswap_dram.c:12-20 | overwriting one page range changes that slot and no other |
| DramBackend.Dram.Write | code/drivers/fastswap_dram.c:12-20 | the slot of the page id, modulo 2^52, takes the page's contents, all others keep theirs |
| DramBackend.Dram.Read | code/drivers/fastswap_dram.c:29-51 | the page comes back with the slot's contents, up to date and unlocked |
| DramBackend.Dram.Perform | code/drivers/fastswap_dram.c:12-51 | the histories of the DRAM backend are exactly those the specification accepts |
| DramBackend.Dram.ReproduceRun | code/drivers/fastswap_dram.c:12-51 | the log of any disciplined RDMA run, done again on a DRAM buffer with the same initial contents, comes back unchanged, and the buffer agrees with far memory wherever no store is under way |
| CmSetup.OutcomeExact | code/drivers/fastswap_rdma.c:228-329 | what sswap_rdma_init_queue returns for every attempt: -19 without an id, the code of a failed rdma_resolve_addr, else 0, -104, -19 or the failed call's code as left by the last deciding event before the wait ended, -110 if there was none |
| CmSetup.OpensIffEstablished | code/drivers/fastswap_rdma.c:228-329 | it returns 0 if and only if ESTABLISHED was handled before the wait ended and afterwards no error event and no address without device, CQ or QP |
| CmSetup.HandlerCallsCounted | code/drivers/fastswap_rdma.c:122-220 | for every list of events: one CQ allocation per resolved address that got a CQ, one QP creation per one that also got a QP, one CQ free per handler whose later verbs call failed, no other call |
| CmSetup.HandlerCallsInOrder | code/drivers/fastswap_rdma.c:122-220 | in protocol order the handlers' calls are exactly: allocate the CQ, create the QP if it can be had, free the CQ if the QP, the route or the connect call failed; nothing without an address |
| CmSetup.CqFreedAtMostOnce | code/drivers/fastswap_rdma.c:135-220 | in protocol order a CQ is freed at most once during setup, and an established queue still owns it |
| CmSetup.FailedQueueLeaksIff | code/drivers/fastswap_rdma.c:122-133 | for every list of events a failed queue destroys its id, leaks its QP exactly if it got one, and a CQ exactly if it got more than later verbs calls failed |
| CmSetup.RollbackIsExact | code/drivers/fastswap_rdma.c:331-363 | if queue i fails first, for every list of events: queues opened in ascending order, every created id destroyed once, queues 0..i-1 stopped and their QP destroyed once each, at positions in descending queue order, nothing of later queues touched; each earlier CQ and QP created and released once if its events came in protocol order |
| CmSetup.Ctrl.CmHandler | code/drivers/fastswap_rdma.c:228-278 | the handler's new cm_error and the calls it makes, event by event |
| CmSetup.Ctrl.InitQueue | code/drivers/fastswap_rdma.c:287-329 | return code and calls of one queue's setup for every event sequence, timeout and signal |
| CmSetup.Ctrl.InitQueues | code/drivers/fastswap_rdma.c:343-363 | stops at the first failure with its code and releases exactly the earlier queues, latest first |
| FarMemoryServer.EveryServerRun | code/farmemserver/rmserver.c:152-297 | in every run, one that ends in death included: device and buffer set up once and first, region sent at most once, on slot 0, after its connection is established, each QP created and destroyed at most once; while alive nothing of this is missing and slots belong to distinct connections |
| FarMemoryServer.SlotsFollowEvents | code/farmemserver/rmserver.c:208-297 | while alive: request number k gets slot k; a slot is CONNECTED exactly from its connection's establishment to its disconnect; the QP and then the id are destroyed exactly if the connection was established and later disconnected |
| FarMemoryServer.DiesIffTooManyRequests | code/farmemserver/rmserver.c:208-219 | a handler reaches die() or runs past the slot array exactly if more connections are requested than there are slots |
| FarMemoryServer.MainEndsIff | code/farmemserver/rmserver.c:93-126 | main is over exactly if more connections were requested than slots or a breaking event came after there were events to end all turns; it returns, instead of dying, exactly if the first such event finds some connection requested and not too many |
| FarMemoryServer.DiesIffOnlyUnknown | code/farmemserver/rmserver.c:109-126 | with no more requests than slots, main dies exactly if the first n+1 events are all unknown |
| FarMemoryServer.ConnectsIff | code/farmemserver/rmserver.c:93-107 | for every list of events: main is in its second loop exactly if there were events at increasing positions to end each slot's turn, no handler died, and no breaking event came after that |
| FarMemoryServer.ConnectsIffInTime | code/farmemserver/rmserver.c:93-107 | the case of no handler returning nonzero: each slot j is connected while n-1-j events are still to come |
| FarMemoryServer.RdmaServer.HandleRequest | code/farmemserver/rmserver.c:208-248 | next slot, device on first use, QP, as specified |
| FarMemoryServer.RdmaServer.HandleConnection | code/farmemserver/rmserver.c:250-284 | slot becomes CONNECTED, region sent on slot 0 only |
| FarMemoryServer.RdmaServer.HandleDisconnect | code/farmemserver/rmserver.c:286-297 | a connected slot goes back to INIT and its QP and id are destroyed; another stays |
| FarMemoryServer.RdmaServer.Handle | code/farmemserver/rmserver.c:299-316 | dispatch and return value of on_event |
| FarMemoryServer.RdmaServer.ConnectLoop | code/farmemserver/rmserver.c:93-107 | the nested loop leaves main where the specification puts it: through, dead in mid-turn, or waiting with all events used; breaking events end a turn |
| FarMemoryServer.RdmaServer.ServeLoop | code/farmemserver/rmserver.c:109-126 | the second loop runs until a breaking event or death; destroy_device then needs a device |
| FarMemoryServer.RdmaServer.RunMain | code/farmemserver/rmserver.c:93-126 | both loops together: over exactly if too many requests or a late breaking event; else in the second loop exactly if there were events to end all turns |
| FarMemoryServer.ConnectedSlotsDistinct | code/farmemserver/rmserver.c:93-107 | if the connect loop gets through with no handler returning nonzero, all slots are CONNECTED and belong to pairwise distinct established connections |
| FarMemoryServer.OutOfOrderBlocks | code/farmemserver/rmserver.c:93-107 | swapped establishments leave the loop waiting with every slot connected; a third request then kills it |
| Handshake.EveryRunPaired | code/farmemserver/rmserver.c:208-277 | in every composed run, with failures, rollback, late and unknown events, server slot k belongs to client queue k, no handler dies, and the region travels only to client queue 0 |
| Handshake.WaitingClientIsServed | code/drivers/fastswap_rdma.c:711-739 | a client waiting for the region can receive it at once or after the one pending server event, exactly unless the server's main was over before it learned of connection 0, which takes unknown events |
| Handshake.ClientFollowsSetup | code/drivers/fastswap_rdma.c:287-363 | the composed client makes the attempts of the setup model, events after the wait included, in protocol order, up to the first failure; the connections disconnected at the server, or about to be, are exactly the established ones among those given up so far |
| Handshake.ServerDiesIff | code/farmemserver/rmserver.c:93-126 | the server's events in a composed run satisfy what its single-run results assume, and its main dies exactly if unknown events take it through both loops before the first request |
| Reclaim.EveryRunAnswered | code/kernel/kernel.patch:205-292 | in every run of charges of at most 2048 pages, however many race: an excess for which the worker will not run is at most what charging threads still have to check or reclaim plus what over-high reclaims fell short of |
| Reclaim.EveryRunWatched | code/kernel/kernel.patch:254-271 | with at most 2048 charged pages awaiting their check, such an excess is covered by the checks alone |
| Reclaim.StrandedAtMostShort | code/kernel/kernel.patch:227-233 | an excess nobody will reclaim is at most what over-high reclaims fell short of |
| Reclaim.InterruptsAlwaysSchedule | code/kernel/kernel.patch:261-266 | in every run whose checks are all made in interrupts, whatever is charged or races, usage above the limit has the worker coming once checked, and no thread is given over-high pages |
| Reclaim.WorkerScheduledIffFewUnchecked | code/kernel/kernel.patch:254-271 | usage above the limit with all checks made always has the worker coming if and only if at most 2048 charged pages can await their check |
| Reclaim.NeverStrandedIff | code/kernel/kernel.patch:205-271 | usage above the limit always has reclaim coming, from worker or thread, if and only if at most 2048 pages can race, or no charge exceeds 2048 pages and over-high reclaim never falls short |
| Reclaim.MemCgroup.TryCharge | code/kernel/kernel.patch:254-271 | usage grows by the pages; the worker is queued exactly if it was or the excess is at most 2048 pages or met in an interrupt; the thread gets 2048 over-high pages exactly if the excess is above 2048 outside an interrupt; other threads keep theirs; all as steps of the state machine, keeping the invariant |
| Reclaim.MemCgroup.HandleOverHigh | code/kernel/kernel.patch:227-233 | the over-high reclaim of one thread as steps of the state machine: frees pages only if it owes some and usage is above the limit, leaves it nothing to do and other threads alone; keeps the invariant |
| Reclaim.MemCgroup.ApplyLimit | code/kernel/kernel.patch:283-292 | memory_high_write and the worker runs it starts end with usage at or below the new limit, whatever state the cgroup was in, within the rounded-up number of runs |
| Reclaim.WorkerAsks | code/kernel/kernel.patch:204-217 | the worker asks for all of the excess, or for 2048 pages if that is more |
| Reclaim.MemCgroup.HighWorkFunc | code/kernel/kernel.patch:204-224 | one worker run as steps of the state machine: requeues itself exactly while an excess remains, frees nothing without one; keeps the invariant |
| Reclaim.MemCgroup.ReclaimChain | code/kernel/kernel.patch:204-224 | the chain stops at or below the limit; within excess / 2048 runs, rounded up, if each run frees what it asks for |
| PerfModel.GradientIsDerivative | code/eval/lib/workloads.py:124-140 | p(x+h) = p(x) + h * gradient(x) + h^2 * R(x,h) for all coefficients, x and h |
| PerfModel.MemGradientIsProductRule | code/eval/lib/workloads.py:124-133 | mem_gradient(x) = p(x) + x * gradient(x) |
| PerfModel.PolyderIsSlope | code/eval/lib/workloads.py:124-127 | polyder's coefficients evaluate to the Horner-rule derivative |
| PerfModel.HornerIsPowerSum | code/eval/lib/workloads.py:135-140 | Horner's rule gives the sum of coefficient times power, the highest power first |
| PerfModel.Workload.ComputeRatioFromCoeff | code/eval/lib/workloads.py:135-140 | the power sum loop computes the value by Horner's rule |
| PerfModel.Workload.GetGradient | code/eval/lib/workloads.py:124-127 | stores the derivative coefficients of p(x) and of x * p(x) |
| PerfModel.Workload.Profile | code/eval/lib/workloads.py:121-122 | milliseconds: 1000 times the polynomial |
| PerfModel.Workload.Gradient | code/eval/lib/workloads.py:129-130 | the derivative at the ratio |
| PerfModel.Workload.MemGradient | code/eval/lib/workloads.py:132-133 | the product-rule derivative at the ratio |
| StreamCheck.ExpectedClosedForm | code/eval/stream/stream.c:443-456 | the replay in closed form; no divisor of the validator is zero |
| StreamCheck.Stream.Benchmark | code/eval/stream/stream.c:267-348 | for every size and repetition count, iterations in any order, every element equals the scalar replay |
| StreamCheck.FailsIff | code/eval/stream/stream.c:458-483 | an array fails exactly if its elements' distances from the expected value add up to more than epsilon times that value per element |
| StreamCheck.SumErrAdditive | code/eval/stream/stream.c:458-467 | the accumulated error is additive over parts of the array, and of one element it is its distance |
| StreamCheck.SumErrIgnoresOrder | code/eval/stream/stream.c:458-467 | the accumulated error does not depend on the order of the elements |
| StreamCheck.PassMeansClose | code/eval/stream/stream.c:458-483 | no element of a passing array is further off than the tolerance of the whole array |
| StreamCheck.FarMeansFail | code/eval/stream/stream.c:458-483 | an array whose every element is off by more than the tolerance fails |
| StreamCheck.BadAdditive | code/eval/stream/stream.c:488-501 | the error count is additive and counts an element exactly if it is off by more than the tolerance |
| StreamCheck.FailureHasBadElement | code/eval/stream/stream.c:483-501 | for arbitrary contents, a reported failure implies at least one element counted as bad |
| StreamCheck.CheckArray | code/eval/stream/stream.c:458-501 | verdict and error count of one array, as characterised above |
| StreamCheck.CheckResults | code/eval/stream/stream.c:433-542 | the number of failed arrays; none after the benchmark |

## Left out

- Driver.Machine.DrainQueue: busy-wait loops take a bound on their rounds, and a call that exceeds it has not returned; that they end under a progressing NIC is shown for a queue used by one producer (`Draining.RdmaQueue`) and as reachability (`Draining.CanDrain`).
- Draining.RdmaQueue.DrainQueue: requires that no post was refused, since the source's loop never ends otherwise.
- StreamCheck.CheckResults: requires at least two repetitions, which the preprocessor enforces in the source.
- Completions with an error status and refused posts are part of every accounting result and excluded from every result about contents: the callbacks only log them.
- `cq_lock` and the split between softirq and direct polling are not modelled; callbacks may run at any time instead, which allows more interleavings.
- The error branches of `get_req_for_page` and `get_req_for_buf` (they test and free the wrong pointer), and DMA directions, which do not match for reads.
- The byte order, registration and keys of the memory region; region delivery is the only use made of it.
- Page locks taken by the rest of the kernel: pages are locked only to be read in and unlocked only by the read's callback, so "unlocked" on return from a fault means that the read is over.
- The size of the readahead window, and which page and CPU a prefetch gets: they are parameters.
- The cgroup ancestor walk and the body of `reclaim_high`, which frees some number of pages if usage is above the limit; a thread that dies with over-high pages counts as one whose reclaim fell short.
- Failures of the server to fetch an event, and of its verbs calls, which end it through `die()`; what the server releases when its `main` returns; the driver's module exit.
- Option parsing, addresses, logging, debugfs, invalidate hooks, timing, floating-point rounding.
- The workload subclasses, the container and benchmark scripts, quicksort and the Fortran STREAM variant.
