# Exchanges, rings and discovery of the qedf and qedi storage drivers, in Dafny

`dafny verify dfyconfig.toml` checks the whole project.

## What is modelled

**Exchanges (qedf).** 4096 I/O requests, a round-robin allocator, reference counts and the handlers that
share a request: submission, completions, ABTS and its timeout, cleanup, flush, RRQ, REC and SRR recovery
with the requeue of a lost command, and the error handler.

- `Requests` and `Exchange` give every handler as a function, on one request and on the pool, and the pool
  as a transition system. A handler that sleeps in `qedf_initiate_cleanup` is two steps.
- `Holders`, `ExchangeInvariant`, `ExchangeSteps`, `ElsSteps`, `ElsCallbacks` and `StepInvariant` prove that
  every step keeps the reference counts equal to the live holders, unless it is a hazard.
- `Decisions` and `Recovery` say what each handler decides, in the driver's own fields and in both directions:
  when a command completes, when an exchange is aborted, what each answer to an ABTS, REC, SRR or RRQ does,
  when a handler waits, and what the error handler reports.
- `ExchangeTheorems` has the results about reference counts and the pool in whole runs.
- `Ledger` follows the commands, in all runs; `Withdrawal` says when an aborted command can complete
  normally; `Accounts` makes the books exact; `Flushing` and `RrqFlush` say what a flush achieves.
- `Frame` says what a step leaves alone. `Leaks` and `Drain` say when a request is lost for ever, and show
  that otherwise the pool can always be emptied.
- `StaleEvent` and `Witnesses` have runs from power-on that reach the cases the theorems single out.
- `CommandManager` is the driver's own form: request objects and a manager that update their fields. Every
  method is proved to do what the functions say. The bookkeeping of the model is ghost there. `Driver` ties
  the objects to the transition system, in every state, and to its invariant until the first hazard.

**The other components.** `Rings` (send and completion queue), `Link` and `Vlan` (bring-up), `Fip`
(descriptor walks), `ScatterGather` (BD table to task context), `IscsiTask` (iSCSI SQE and context),
`AllocRace` (threads inside allocation and release at once), `TaskMemory`, `Sessions`.

## What the proofs found

- *Reference counts.* They do not equal the live holders in every run. They do if and only if no step is a
  hazard (`StepInvariant.Hazard`). The first hazard: `event` is not reset when a request is allocated, so
  an RRQ sent on a request whose last use was a timed-out ELS is dropped by `qedf_rrq_compl` and by
  `qedf_process_els_compl` (run: `StaleEvent.CountDropsBelowZero`). The second: an ABTS completion on a
  request that is in abort but has become a cleanup while no flush is active; its timeout handler waits for
  that cleanup. The source marks this case at qedf_io.c:2236-2240 (run: `Witnesses.LateAbtsHappens`). The
  third: an ABTS completion after the abort was given up. `qedf_process_abts_compl` does not test IN_ABORT,
  and when the ABTS timeout or the flush finds no room on the send queue, no ready session or no answer to
  its cleanup, it clears IN_ABORT and drops the reference while the ABTS is still out. An accepted ABTS then
  releases the request with its RRQ pending, and `qedf_send_rrq` takes its NULL-port return (run:
  `Witnesses.LateAcceptHappens`). After the second and the third the count is exactly one too small.
- *Aborted commands.* A command whose exchange has been aborted can still complete normally. If a REC is out
  for it and is answered "command lost", `qedf_requeue_io_req` moves it to a second exchange without looking
  at the abort, and `qedf_eh_abort` then reports success while that exchange has the command
  (run: `Witnesses.AbortedCommandCompletes`). Without such a requeue it cannot happen
  (`Withdrawal.NormalNeedsRequeue`).
- *Leaks.* At four kinds of step (`Leaks.Leak`) a reference is left that is never dropped: rrq_work that is
  queued while pending, an RRQ that gives up for lack of a session or because of other holders, the timeout
  of an ELS other than an RRQ that becomes a cleanup, and the abort of an ELS. Each costs a request for ever.
  Without them and without hazards the pool can be emptied from every state.
- *Lost commands.* An accepted command is neither given back nor held exactly after a bad pointer in
  `qedf_scsi_done`, a missing device in the flush, or a failed post of a requeued command.
- *Allocation.* Both limits are tested outside the pool lock. With k threads inside at once a port counts up
  to 511 + k requests, as long as there are that many (k <= 3585). Of the 16 reserved requests 17 - k stay
  free, none from 17 threads on, and from 18 on a caller that passed both tests can find no free request.
- *Flush.* A visit spares the command of an outstanding request when the session is not ready, the send queue
  is full, a cleanup is under way, or the timer of its abort is not running (`Flushing.Spared`).
- *RRQ after a flush.* A request that a flush finds not outstanding has no RRQ afterwards, except one that still
  waits for the answer to its ABTS (`RrqFlush.RrqComesIff`, run: `Witnesses.RrqAfterFlushHappens`).
- *Sessions.* The limit of 1024 is checked before the login sleeps and counted after it: k overlapping logins
  reach 1023 + k.
- *Slow lists.* A comment in `qedf_map_sg` says that inner elements matter from 8 elements on. The code
  looks at them from 9 on, and the model follows the code.
- *VLAN discovery.* A response to the last request is stored, but the loop has ended and reports failure; the
  fallback VLAN then replaces it.
- *Control requests.* A command that is neither a read nor a write is set up as a read, but its list is
  classified as for a write, so that its receive side can be slow.
- *iSCSI.* The length in the SQE has 24 bits; it is the task size exactly below 2^24.

## Assumptions about the environment

Everything outside the pool that a handler looks at (session and link state, send-queue room, memory, DMA
buffers, pointer checks, what the peer answers) is an unconstrained `Env` value that may differ at every
step. `Exchange.Enabled` states the rest:

- the mid-layer does not submit a command that an exchange still holds;
- an ABTS completion arrives only for an ABTS that was sent in the present use of the request and that no
  completion has been processed for and no cleanup has ended since (it may arrive after the driver has given
  the abort up); and while a flush sleeps on a request its port is marked as being reset;
- the firmware's REC timer runs on FCP exchanges only (only the read/write task setup sets a device type);
- there is one flush at a time (`flush_mutex`), and suspended handlers and pending work run only where they
  are suspended or pending.

Apart from that any completion may arrive at any time, and one that the driver drops may arrive again. Each
handler is one step, apart from the wait in `qedf_initiate_cleanup`.

## Model

| member | source | states |
|---|---|---|
| `ExchangeTheorems.BalancedIff` | qedf-8.70.12.0/qedf_io.c:444-480 | in every run from power-on, every reference count equals the number of live holders, and alloc, a port and a positive count agree, in all states if and only if no step is one of the three hazards |
| `ExchangeTheorems.HazardBreaks` | qedf-8.70.12.0/qedf_els.c:143-245 | each hazard leaves a count that is not the number of holders |
| `ExchangeTheorems.StaleRrqBreaks` | qedf-8.70.12.0/qedf_els.c:195-243 | an RRQ that completes on a request with a left-over timeout event ends with count -1 |
| `ExchangeTheorems.LateAbtsBreaks` | qedf-8.70.12.0/qedf_io.c:2236-2294 | an ABTS completion during the cleanup wait of its timeout, or after its abort was given up, leaves the count exactly one too small |
| `StaleEvent.CountDropsBelowZero` | qedf-8.70.12.0/qedf_els.c:198-245 | there is a run from power-on, with one port and one command, that reaches count -1 |
| `StepInvariant.StepKeeps` | qedf-8.70.12.0/qedf_main.c:3378-3521 | every enabled step that is not a hazard keeps the invariant of the whole pool |
| `ExchangeTheorems.InitialInv` | qedf-8.70.12.0/qedf_io.c:187-309 | the invariant holds at power-on |
| `ExchangeTheorems.AtMostOnce` | qedf-8.70.12.0/qedf_io.c:1478-1605 | in every run, hazards included, a command is given back at most as often as it was accepted, and one request at most owns it |
| `Ledger.LawfulStep` | qedf-8.70.12.0/qedf_io.c:1244-1605 | every step appends at most one log entry, a normal completion only from a request of the SCSI type, and keeps the command books |
| `Withdrawal.NormalNeedsRequeue` | qedf-8.70.12.0/qedf_main.c:3425-3463 | in every run, hazards included: once an abort or cleanup has taken the exchange of a command over, the command completes normally before it is accepted again only if some step is a REC callback that requeues it |
| `Withdrawal.CompletableAgainIff` | qedf-8.70.12.0/qedf_els.c:814-874 | in runs without hazards the condition is exact: at some time a good completion could return the command normally if and only if the run requeues it or it is accepted again |
| `Withdrawal.CompletableIff` | qedf-8.70.12.0/qedf_io.c:1269-1293 | some good completion returns a command normally now if and only if a request of the SCSI type has it |
| `Withdrawal.GainsBinds` | qedf-8.70.12.0/qedf_els.c:933-957 | a command that is accepted, or requeued after the answer command lost, is on an exchange that can complete it, whatever has become of the first one |
| `Witnesses.AbortedCommandCompletes` | qedf-8.70.12.0/qedf_els.c:814-874 | there is a run from power-on in which the error handler aborts a command, reports success while a second exchange has it, and the command then completes normally |
| `ExchangeTheorems.NoNormalAfterAbort` | qedf-8.70.12.0/qedf_main.c:3425-3463 | in every run, hazards included, the request itself never completes normally in the use that was taken over |
| `ExchangeTheorems.PoolConserved` | qedf-8.70.12.0/qedf_io.c:348-380 | free and per-port counts are exact, add up to 4096, keep 16 in reserve and stay within 512 per port |
| `ExchangeTheorems.RrqHasPort` | qedf-8.70.12.0/qedf_els.c:264-279 | in every run without hazards, whenever rrq_work is pending its request is allocated and has a port, so the NULL-port return is not taken; Witnesses.LateAcceptHappens has a run with the third hazard that takes it |
| `ExchangeTheorems.ScanSucceeds` | qedf-8.70.12.0/qedf_io.c:331-363 | the scan returns the first free request behind the cursor, and succeeds exactly when the limits allow it |
| `Drain.EmptiableIff` | qedf-8.70.12.0/qedf_io.c:463-479 | after a run without hazards, some continuation without hazards returns all 4096 requests to the pool if and only if no step of the run was one of the four leaks |
| `Drain.Releases` | qedf-8.70.12.0/qedf_io.c:444-480 | from every state without hazards and leaks before it, some run of handlers releases any given request and takes none |
| `Leaks.LeakCosts` | qedf-8.70.12.0/qedf_els.c:282-308 | each leak costs the pool a request for ever: in every continuation without hazards it stays allocated, and so does the target of an aborted ELS |
| `Leaks.LostForever` | qedf-8.70.12.0/qedf_io.c:79-105 | a request with a lost reference stays allocated in every run without hazards |
| `Leaks.StepWorsens` | qedf-8.70.12.0/qedf_main.c:3378-3521 | no step undoes a loss, and no step but a leak causes one |
| `Leaks.NothingLost` | qedf-8.70.12.0/qedf_io.c:463-479 | without hazards and leaks, when nothing is going on all 4096 requests are free and every port counts zero |
| `Witnesses.LateAbtsHappens` | qedf-8.70.12.0/qedf_io.c:41-76 | the second hazard is reached from power-on: the request is released while the timeout handler sleeps on it, and ends at count -1 |
| `Witnesses.LateAcceptHappens` | qedf-8.70.12.0/qedf_io.c:58-71 | the third hazard is reached from power-on: the ABTS timeout finds the send queue full and gives up, the ABTS is accepted after all, the request is released with its RRQ pending, the NULL-port return is taken and the count ends at -1 |
| `Witnesses.DoubleRrqLeakHappens` | qedf-8.70.12.0/qedf_io.c:2254-2266 | rrq_work queued while pending is reached from power-on |
| `Witnesses.RrqLeakHappens` | qedf-8.70.12.0/qedf_els.c:282-308 | an RRQ that gives up with its reference is reached from power-on |
| `Witnesses.ElsTimeoutLeakHappens` | qedf-8.70.12.0/qedf_io.c:79-105 | the cleanup of a timed-out ELS is reached from power-on |
| `Witnesses.ElsAbortLeakHappens` | qedf-8.70.12.0/qedf_io.c:2139-2159 | the abort of an ELS is reached from power-on |
| `Accounts.BooksExact` | qedf-8.70.12.0/qedf_io.c:1478-1605 | in every run without hazards the acceptances of a command are its returns, plus one while an exchange holds it, plus the times it was lost |
| `Accounts.OwedStep` | qedf-8.70.12.0/qedf_io.c:1598-1604 | a command is lost exactly by a bad pointer in qedf_scsi_done, a missing device in the flush, or a failed post of a requeued command |
| `Flushing.SparedIff` | qedf-8.70.12.0/qedf_io.c:1826-2010 | a flush visit leaves the command of an outstanding request alone if and only if the LUN is another one, the session is not ready, the send queue is full, a cleanup is under way, or the timer of an abort is not running |
| `Flushing.FlushEmpties` | qedf-8.70.12.0/qedf_io.c:1826-2010 | whatever happens in between: once the walk no longer waits on a request whose command it did not spare, the request has let go of it |
| `Flushing.FlushReturns` | qedf-8.70.12.0/qedf_io.c:1826-2010 | and the command has been given back exactly once, unless it was requeued, lost or submitted again |
| `Flushing.WalkKeeps` | qedf-8.70.12.0/qedf_io.c:1826-2010 | the walk keeps the pool invariant, and waits on one request at most |
| `Flushing.WalkIsRun` | qedf-8.70.12.0/qedf_io.c:1826-2010 | the loop is a run of visits of the transition system |
| `Flushing.WalkEmpties` | qedf-8.70.12.0/qedf_io.c:1826-2010 | every request behind the walk that was not spared has let go of its command, or is the one it waits on |
| `Flushing.WholeFlush` | qedf-8.70.12.0/qedf_io.c:1767-2058 | for a flush from its first visit to its end, sleeps and any interleaved steps included: every request is visited, every command that a visit finds and does not spare is gone from its request in the end, and a request found idle has no RRQ of that use left |
| `Frame.TidyCallback` | qedf-8.70.12.0/qedf_els.c:877-1041 | a callback keeps the bookkeeping of all requests, and moves no command unless it requeues |
| `Decisions.CompletesIff` | qedf-8.70.12.0/qedf_io.c:1244-1482 | a good completion returns the command of a SCSI exchange normally if and only if it is outstanding, neither aborted nor cleaned up, its pointers are sound and no reset is under way; otherwise nothing changes |
| `Decisions.ErrorAbortsIff` | qedf-8.70.12.0/qedf_io.c:1682-1730 | error detection puts the exchange into abort, with timer and reference, if and only if the guards of qedf_initiate_abts hold and no reset is under way |
| `Decisions.WarningAbortsIff` | qedf-8.70.12.0/qedf_io.c:1611-1679 | a warning other than the REC timer does so if and only if the guards hold |
| `Decisions.EhAbortsIff` | qedf-8.70.12.0/qedf_main.c:1040-1187 | the error handler does so if the guards hold, and otherwise gives the command back unless a pointer is bad, and leaves |
| `Decisions.AbtsAnswerActs` | qedf-8.70.12.0/qedf_io.c:2200-2295 | an answer to an ABTS ends abort and timer, queues the RRQ exactly for an accept, and sets state and event; during a reset or without a session it changes nothing |
| `Decisions.AbtsAnswerReturns` | qedf-8.70.12.0/qedf_io.c:2277-2286 | the command goes back with the answer exactly if the abort was to return it |
| `Decisions.AbtsTimerActs` | qedf-8.70.12.0/qedf_io.c:41-76 | the ABTS timeout waits for a cleanup exactly if one can be sent, and otherwise gives the abort up and drops its reference |
| `Decisions.StrayTimer` | qedf-8.70.12.0/qedf_io.c:106-119 | a timer on any other exchange changes nothing else |
| `Decisions.CleanupArrives` | qedf-8.70.12.0/qedf_io.c:2541-2551 | a cleanup completion clears the cleanup mark exactly if the request has a ready session |
| `Decisions.ReportAfterAnswer` | qedf-8.70.12.0/qedf_main.c:1156-1168 | after a processed answer qedf_eh_abort reports success for an accept and a reject, and for any other answer exactly if it would have before |
| `Decisions.ReportAfterTimeout` | qedf-8.70.12.0/qedf_io.c:2499-2539 | after the ABTS timeout it reports success if and only if the cleanup did not time out |
| `Decisions.ReportAfterFlush` | qedf-8.70.12.0/qedf_io.c:1919-1939 | the same after a flush has cleaned the exchange up |
| `Decisions.EhStartsIff` | qedf-8.70.12.0/qedf_main.c:1068-1090 | the error handler takes a reference on the request SCp.ptr names if and only if it still has the command |
| `Decisions.SlotIff` | qedf-8.70.12.0/qedf_io.c:331-363 | a request can be had if and only if there is room in the send queue, fewer than 512 are in use on the port and more than 16 are free, and it is the first free one behind the cursor |
| `Decisions.QueueRefuses` | qedf-8.70.12.0/qedf_io.c:1152-1170 | a command is refused when these limits forbid it |
| `Decisions.QueueActs` | qedf-8.70.12.0/qedf_io.c:947-1043 | otherwise it is bound and outstanding on that request, or on none if the post fails, with SCp.ptr set all the same |
| `Decisions.FlushPasses` | qedf-8.70.12.0/qedf_io.c:1826-1857 | the flush leaves free requests and those of other ports alone |
| `Decisions.FlushCancelsRrq` | qedf-8.70.12.0/qedf_io.c:1858-1877 | the flush of a request that is not outstanding cancels a pending RRQ and drops its reference, and does nothing else |
| `Decisions.FlushAbtsActs` | qedf-8.70.12.0/qedf_io.c:1901-1939 | the flush of an ABTS cancels RRQ and timer, and cleans up or gives up the abort exactly if the timer ran |
| `Decisions.FlushAsksState` | qedf-8.70.12.0/qedf_io.c:1869-1874 | in every state, the flush cancels the RRQ of such a request if and only if it is in RRQ_WAIT |
| `Decisions.FlushScsiActs` | qedf-8.70.12.0/qedf_io.c:1942-2009 | the flush of an outstanding command: dropped without its device, passed for another LUN, given back at once during recovery, and otherwise waited for exactly if a cleanup can be sent |
| `Decisions.GiveBackIff` | qedf-8.70.12.0/qedf_io.c:1485-1605 | in every state: qedf_scsi_done takes the command unless it was done before or SCp.ptr is gone while the address is sound, and gives it back only if all pointers are sound |
| `Recovery.AdiscActs` | qedf-8.70.12.0/qedf_els.c:10-141 | an ADISC goes out on the next free request if and only if port, link, memory, buffers and limits allow it |
| `Recovery.RecActs` | qedf-8.70.12.0/qedf_io.c:1648-1678 | for a quiet exchange a REC goes out, none while an SRR is under way, and an abort replaces it exactly if it cannot be sent and the guards hold |
| `Recovery.RecEnds` | qedf-8.70.12.0/qedf_els.c:877-1041 | what each end of a REC does: timeout nothing, command lost moves the command and aborts the first exchange, response lost sends an SRR or aborts, anything else nothing |
| `Recovery.SrrActs` | qedf-8.70.12.0/qedf_els.c:577-664 | however an SRR ends, SrrSent is cleared; the exchange is aborted if and only if the SRR was rejected without a timeout and the guards hold |
| `Recovery.RrqActs` | qedf-8.70.12.0/qedf_els.c:198-245 | however an RRQ ends, the aborted exchange loses its reference and nothing else |
| `Recovery.RrqRunsActs` | qedf-8.70.12.0/qedf_els.c:248-346 | rrq_work keeps its reference for ever without a session or with other holders; otherwise the RRQ goes out or the request is released |
| `Recovery.ElsDropped` | qedf-8.70.12.0/qedf_els.c:143-196 | an ELS completion is dropped after a flush or cleanup and during a reset |
| `Recovery.ElsTimerWaits` | qedf-8.70.12.0/qedf_io.c:79-97 | the timeout of an ELS waits for a cleanup exactly if one can be sent |
| `Recovery.ElsTimerEnds` | qedf-8.70.12.0/qedf_io.c:98-105 | with a full send queue it ends at once: an RRQ is freed, any other ELS waits for its completion |
| `Recovery.FlushElsWaits` | qedf-8.70.12.0/qedf_io.c:1881-1898 | only the flush of a whole target touches an ELS, and it waits for a cleanup if one can be sent |
| `Recovery.ElsFreed` | qedf-8.70.12.0/qedf_els.c:190-196 | a completed or flushed ELS request is free again |
| `RrqFlush.RrqNeedsAnswer` | qedf-8.70.12.0/qedf_io.c:2254-2267 | in every state, only the answer to an ABTS queues an RRQ |
| `RrqFlush.RrqComesIff` | qedf-8.70.12.0/qedf_io.c:1858-1877 | after a flush has visited a request that is not outstanding, some continuation without hazards brings an RRQ in the same use if and only if the request was waiting for the answer to an ABTS |
| `Withdrawal.SrrLeavesCompletable` | qedf-8.70.12.0/qedf_els.c:647-654 | the end of an SRR leaves a command that could complete able to, unless it is the command of the exchange and a rejected SRR aborts it |
| `Witnesses.SrrRecovers` | qedf-8.70.12.0/qedf_els.c:577-664 | there is a run from power-on in which a REC is answered response lost, the SRR is accepted, and the command completes normally |
| `Witnesses.RrqAfterFlushHappens` | qedf-8.70.12.0/qedf_io.c:1858-1877 | there is a run from power-on after which a flush passes an aborted request and its RRQ comes later |
| `Holders.ScsiDoneKeeps` | qedf-8.70.12.0/qedf_io.c:1485-1605 | giving a command back drops the command's reference and nothing else |
| `Holders.ScsiCompletionKeeps` | qedf-8.70.12.0/qedf_io.c:1244-1482 | a normal completion keeps the count equal to the holders |
| `Holders.AbtsKeeps` | qedf-8.70.12.0/qedf_io.c:2064-2198 | an ABTS brings its own reference; an ELS turned ABTS is accounted for |
| `Holders.AbtsComplKeeps` | qedf-8.70.12.0/qedf_io.c:2200-2295 | while the request is in abort and no timeout handler waits, the ABTS completion drops the ABTS reference and takes one for the RRQ; otherwise it is a hazard or dropped |
| `Holders.AbtsTimeoutKeeps` | qedf-8.70.12.0/qedf_io.c:41-76 | the ABTS timeout keeps the reference while it waits and drops it otherwise |
| `Holders.AbtsTimeoutEndKeeps` | qedf-8.70.12.0/qedf_io.c:41-76 | after the wait the ABTS reference is dropped once |
| `Holders.FlushAbtsVisitKeeps` | qedf-8.70.12.0/qedf_io.c:1901-1939 | flushing an ABTS drops exactly the RRQ, ABTS and walker references |
| `Holders.FlushScsiVisitKeeps` | qedf-8.70.12.0/qedf_io.c:1942-2009 | flushing a command drops exactly the walker's reference and the command's |
| `Holders.FlushScsiEndKeeps` | qedf-8.70.12.0/qedf_io.c:1767-2058 | the same after the walker has waited |
| `Holders.EhAbortKeeps` | qedf-8.70.12.0/qedf_main.c:1040-1187 | the error handler's reference is dropped on every way out |
| `Holders.EarlyTimeout` | qedf-8.70.12.0/qedf_io.c:79-105 | an ELS timeout whose cleanup does not start leaves a balanced request |
| `Holders.LateTimeout` | qedf-8.70.12.0/qedf_io.c:79-105 | an ELS timeout after its cleanup leaves a balanced request |
| `Holders.EarlyFlush` | qedf-8.70.12.0/qedf_io.c:1732-1762 | a flushed ELS whose cleanup does not start leaves a balanced request |
| `Holders.LateFlush` | qedf-8.70.12.0/qedf_io.c:1732-1762 | a flushed ELS after its cleanup leaves a balanced request |
| `Holders.CompletionEnds` | qedf-8.70.12.0/qedf_els.c:143-196 | an ELS completion leaves a balanced request unless the event is stale |
| `ElsSteps.RequeueKeeps` | qedf-8.70.12.0/qedf_els.c:814-874 | moving a command to a second exchange keeps the pool invariant |
| `ElsSteps.SrrKeeps` | qedf-8.70.12.0/qedf_els.c:666-738 | so does an SRR, sent or turned into an abort |
| `ElsSteps.RecKeeps` | qedf-8.70.12.0/qedf_els.c:1044-1114 | so does a REC, sent or turned into an abort |
| `ElsSteps.RrqKeeps` | qedf-8.70.12.0/qedf_els.c:248-346 | so does an RRQ, sent, abandoned or dropped |
| `ElsCallbacks.CallbackKeeps` | qedf-8.70.12.0/qedf_els.c:877-1041 | a callback releases exactly the request its ELS was sent for and leaves the ELS request alone |
| `ElsCallbacks.ResumedAs` | qedf-8.70.12.0/qedf_io.c:79-105 | an ELS request has no command, so a handler that resumes on it gives nothing back |
| `ElsCallbacks.ElsComplKeeps` | qedf-8.70.12.0/qedf_els.c:143-196 | an ELS completion keeps the pool invariant unless the event is stale |
| `ElsCallbacks.ElsTimeoutKeeps` | qedf-8.70.12.0/qedf_io.c:79-105 | so does an ELS timeout |
| `ElsCallbacks.FlushElsVisitKeeps` | qedf-8.70.12.0/qedf_io.c:1881-1898 | so does the flush of an ELS |
| `CommandManager.Request.constructor` | qedf-8.70.12.0/qedf_io.c:225-240 | a request starts free |
| `CommandManager.Request.Init` | qedf-8.70.12.0/qedf_io.c:369-405 | exactly the fields that allocation writes; event, callback and pending work stay |
| `CommandManager.Request.Release` | qedf-8.70.12.0/qedf_io.c:444-480 | the request returns to the pool and both counters move |
| `CommandManager.Request.KrefPut` | qedf-8.70.12.0/qedf_io.c:444-480 | the count drops, and the release happens exactly at zero |
| `CommandManager.Request.Post` | qedf-8.70.12.0/qedf_io.c:947-1043 | a posted command is bound and outstanding, a failed post releases the request |
| `CommandManager.Request.ScsiDone` | qedf-8.70.12.0/qedf_io.c:1485-1605 | the command is given back at most once, and its reference dropped also for a bad pointer |
| `CommandManager.Request.ScsiCompletion` | qedf-8.70.12.0/qedf_io.c:1269-1482 | only an outstanding request that is neither aborted nor cleaned up completes |
| `CommandManager.Request.InitiateAbts` | qedf-8.70.12.0/qedf_io.c:2064-2198 | starts exactly when all guards pass |
| `CommandManager.Request.AbtsCompl` | qedf-8.70.12.0/qedf_io.c:2200-2295 | the whole effect of an ABTS answer, with its early returns |
| `CommandManager.Request.InitiateCleanup` | qedf-8.70.12.0/qedf_io.c:2401-2499 | admission, refusal and the start of the wait |
| `CommandManager.Request.FinishCleanup` | qedf-8.70.12.0/qedf_io.c:2499-2539 | the rest of a cleanup |
| `CommandManager.Request.AbtsTimeout` | qedf-8.70.12.0/qedf_io.c:41-76 | the ABTS timeout up to its wait |
| `CommandManager.Request.ResumeAbtsTimeout` | qedf-8.70.12.0/qedf_io.c:41-76 | the ABTS timeout after its wait |
| `CommandManager.Request.CancelRrq` | qedf-8.70.12.0/qedf_io.c:1869-1925 | whoever cancels rrq_work drops its reference |
| `CommandManager.Request.FlushNotOutstanding` | qedf-8.70.12.0/qedf_io.c:1858-1877 | the flush of a request that is not outstanding |
| `CommandManager.Request.FlushAbtsVisit` | qedf-8.70.12.0/qedf_io.c:1901-1939 | the flush of an ABTS up to its wait |
| `CommandManager.Request.FlushScsiVisit` | qedf-8.70.12.0/qedf_io.c:1942-2009 | the flush of any other request up to its wait |
| `CommandManager.Request.ResumeFlush` | qedf-8.70.12.0/qedf_io.c:1767-2058 | the flush after the wait |
| `CommandManager.Request.EhAbort` | qedf-8.70.12.0/qedf_main.c:1040-1187 | abort, or give the command back and leave |
| `CommandManager.Request.EhEnd` | qedf-8.70.12.0/qedf_main.c:1184-1187 | the error handler drops its reference |
| `CommandManager.Request.StartEls` | qedf-8.70.12.0/qedf_els.c:60-141 | an ELS request is set up, or released when buffers are missing |
| `CommandManager.Request.BeginRrq` | qedf-8.70.12.0/qedf_els.c:248-320 | the checks of an RRQ, with the two returns that keep the reference |
| `CommandManager.Request.SrrCompl` | qedf-8.70.12.0/qedf_els.c:577-664 | the answer to an SRR |
| `CommandManager.Request.ElsDrop` | qedf-8.70.12.0/qedf_els.c:190-245 | the references an ELS completion drops |
| `CommandManager.Request.ElsTmoDrop` | qedf-8.70.12.0/qedf_io.c:98-105 | the references an ELS timeout drops |
| `CommandManager.Request.ElsFlushDrop` | qedf-8.70.12.0/qedf_io.c:1755-1762 | the references the flush of an ELS drops |
| `CommandManager.Manager.constructor` | qedf-8.70.12.0/qedf_io.c:187-309 | 4096 free requests with their own index as xid |
| `CommandManager.Manager.Scan` | qedf-8.70.12.0/qedf_io.c:348-363 | the loop finds the first free request, once around |
| `CommandManager.Manager.AllocCmd` | qedf-8.70.12.0/qedf_io.c:311-413 | the limits, the scan and the bookkeeping of an allocation |
| `CommandManager.Manager.PostIoReq` | qedf-8.70.12.0/qedf_io.c:947-1043 | SCp.ptr is set before the post can fail |
| `CommandManager.Manager.QueueCommand` | qedf-8.70.12.0/qedf_io.c:1049-1174 | allocation and post of a command |
| `CommandManager.Manager.InitiateEls` | qedf-8.70.12.0/qedf_els.c:10-141 | an ELS is sent, refused or released; reports which |
| `CommandManager.Manager.Requeue` | qedf-8.70.12.0/qedf_els.c:814-874 | in the source's order: allocate, release the first exchange, post, abort |
| `CommandManager.Manager.SendSrr` | qedf-8.70.12.0/qedf_els.c:666-738 | SRR or abort |
| `CommandManager.Manager.SendRec` | qedf-8.70.12.0/qedf_els.c:1044-1114 | REC or abort |
| `CommandManager.Manager.SendRrq` | qedf-8.70.12.0/qedf_els.c:248-346 | RRQ with all error returns |
| `CommandManager.Manager.RecCompl` | qedf-8.70.12.0/qedf_els.c:877-1041 | requeue, SRR or nothing, by the answer |
| `CommandManager.Manager.SrrCompl` | qedf-8.70.12.0/qedf_els.c:577-664 | abort or nothing, by the answer |
| `CommandManager.Manager.RunCallback` | qedf-8.70.12.0/qedf_els.c:198-245 | dispatch to the callback and release of the original request |
| `CommandManager.Manager.ElsCompl` | qedf-8.70.12.0/qedf_els.c:143-196 | an ELS completion |
| `CommandManager.Manager.ElsTimeout` | qedf-8.70.12.0/qedf_io.c:79-105 | an ELS timeout up to its wait, or to its end |
| `CommandManager.Manager.ResumeElsTimeout` | qedf-8.70.12.0/qedf_io.c:79-105 | an ELS timeout after its wait |
| `CommandManager.Manager.FlushEls` | qedf-8.70.12.0/qedf_io.c:1881-1898 | the flush of an ELS up to its wait, or to its end |
| `CommandManager.Manager.ResumeFlushEls` | qedf-8.70.12.0/qedf_io.c:1732-1762 | the flush of an ELS after its wait |
| `CommandManager.Manager.FlushVisit` | qedf-8.70.12.0/qedf_io.c:1826-2010 | one turn of the flush loop; reports whether it sleeps |
| `CommandManager.Manager.FlushActiveIos` | qedf-8.70.12.0/qedf_io.c:1826-2010 | the loop visits every request from any start to the next sleep or the end, and sleeps nowhere before |
| `CommandManager.Manager.ResumeFlush` | qedf-8.70.12.0/qedf_io.c:1826-2010 | the flush loop after a sleep |
| `CommandManager.Manager.GoodCqe` | qedf-8.70.12.0/qedf_main.c:3428-3463 | dispatch of a good completion by request type |
| `CommandManager.Manager.ErrorCqe` | qedf-8.70.12.0/qedf_io.c:1682-1730 | error detection aborts unless a flush is active |
| `CommandManager.Manager.WarningCqe` | qedf-8.70.12.0/qedf_io.c:1611-1679 | REC for a quiet exchange, abort otherwise |
| `CommandManager.Manager.CleanupCqe` | qedf-8.70.12.0/qedf_io.c:2541-2551 | a cleanup completion only clears the flag |
| `CommandManager.Manager.AbtsCqe` | qedf-8.70.12.0/qedf_io.c:2200-2295 | an ABTS completion |
| `CommandManager.Manager.CmdTimeout` | qedf-8.70.12.0/qedf_io.c:19-119 | the timeout by request type |
| `CommandManager.Manager.ResumeAbtsTimeout` | qedf-8.70.12.0/qedf_io.c:41-76 | the ABTS timeout after its wait |
| `CommandManager.Manager.EhStarts` | qedf-8.70.12.0/qedf_main.c:1068-1090 | the error handler holds the request that SCp.ptr names, if it still has the command |
| `CommandManager.Manager.EhAborts` | qedf-8.70.12.0/qedf_main.c:1142-1152 | the error handler's abort |
| `CommandManager.Manager.EhLeaves` | qedf-8.70.12.0/qedf_main.c:1184-1187 | the error handler lets go |
| `Driver.Start` | qedf-8.70.12.0/qedf_io.c:187-309 | power-on establishes the invariant |
| `Driver.Handle` | qedf-8.70.12.0/qedf_main.c:3378-3521 | the objects do exactly the step of the transition system in every state, and keep the invariant unless it is a hazard |
| `Driver.FlushPort` | qedf-8.70.12.0/qedf_io.c:1767-2058 | on the objects: a flush is a run of visits, keeps the invariant, and takes the command from every request behind it that it does not spare or wait on |
| `Rings.RingFollowsIndex` | qedf-8.70.12.0/qedf_io.c:855-869 | the ring index follows the 16-bit index through every wrap if and only if 2^16 is a multiple of the ring size |
| `Rings.ProducersAgree` | qedf-8.70.12.0/qedf_io.c:855-869 | sq_prod_idx is fw_sq_prod_idx modulo the queue size after any number of posts |
| `Rings.DriverSizesFit` | qedf-8.70.12.0/qedf.h:661-666 | 1024 and 4096 entries fit |
| `Rings.SlotDistinct` | qedf-8.70.12.0/qedf_io.c:855-869 | a window of one queue size uses distinct entries |
| `Rings.SlotIsMod` | qedf-8.70.12.0/qedf_io.c:855-869 | counting up and wrapping is the remainder |
| `Rings.SendQueue.GetSqeIdx` | qedf-8.70.12.0/qedf_io.c:855-869 | the next entry and both advanced indices |
| `Rings.SendQueue.Post` | qedf-8.70.12.0/qedf_io.c:998-1036 | the ring keeps the last entries of the unbounded queue |
| `Rings.SendQueue.Queue` | qedf-8.70.12.0/qedf_io.c:1152-1170 | free entries plus commands at the firmware stay the queue size, also when the command cannot be built |
| `Rings.SendQueue.Complete` | qedf-8.70.12.0/qedf_main.c:3430-3431 | a completion gives its entry back |
| `Rings.DifferenceExactIff` | qedf-8.70.12.0/qedf_main.c:2736-2742 | the 16-bit difference is exact if and only if fewer than 2^16 entries are new |
| `Rings.CompletionQueue.Produce` | qedf-8.70.12.0/qedf_main.c:2734-2742 | an entry written by the firmware disturbs none that is unread |
| `Rings.CompletionQueue.Step` | qedf-8.70.12.0/qedf_main.c:2744-2808 | one entry is dispatched, or repeated when its allocation fails |
| `Rings.CompletionQueue.ProcessCompletions` | qedf-8.70.12.0/qedf_main.c:2718-2813 | exactly the new entries are dispatched, once and in order, unsolicited ones directly and all others queued, and the loop ends |
| `Rings.ConsumerFollows` | qedf-8.70.12.0/qedf_main.c:2804-2808 | cq_cons_idx is cq_prod_idx modulo the ring size |
| `Link.DiscoveryMeets` | qedf-8.70.12.0/qedf_main.c:800-975 | for every history of events: discovery queued at most once between two link-downs, exactly when link and DCBX have met, and as recovery exactly while the link-down timeout runs; and when link_update waits to run |
| `Link.AlwaysMeets` | qedf-8.70.12.0/qedf_main.c:800-975 | the fields follow from the history of events |
| `Link.PriorityMeets` | qedf-8.70.12.0/qedf_main.c:905-950 | for every history: the parameter if it is in 0..7, otherwise what the last event that completed DCBX reported for FCoE if that is in 0..7, otherwise 3 |
| `Link.PrioInRange` | qedf-8.70.12.0/qedf_main.c:3985-3993 | the priority is in 0..7 after any history and for any parameters |
| `Link.Checked` | qedf-8.70.12.0/qedf_main.c:4950-4959 | a priority parameter above 7 becomes 3, anything else is kept |
| `Link.Adapter.LinkUpdate` | qedf-8.70.12.0/qedf_main.c:800-860 | link up and link down |
| `Link.Adapter.ValidateAppTlv` | qedf-8.70.12.0/qedf_main.c:863-887 | the loop finds a usable FCoE priority or 255 |
| `Link.Adapter.DcbxHandler` | qedf-8.70.12.0/qedf_main.c:889-975 | a DCBX event |
| `Link.Adapter.HandleLinkUpdate` | qedf-8.70.12.0/qedf_main.c:347-412 | the delayed work ends the link-down timeout |
| `Vlan.TagDecodesIff` | qedf-8.70.12.0/qedf_main.c:150-157 | the stored tag gives back VLAN id and priority if and only if the id has 12 bits |
| `Vlan.TagZeroIff` | qedf-8.70.12.0/qedf_main.c:150-157 | the tag is zero only for id 0 at priority 0 |
| `Vlan.FoundIff` | qedf-8.70.12.0/qedf_main.c:161-207 | the loop succeeds if and only if a response comes before the last attempt and nothing stops it |
| `Vlan.NoResponse` | qedf-8.70.12.0/qedf_main.c:161-207 | without a response all attempts are used, and no more |
| `Vlan.Discovery.InitiateFipVlanReq` | qedf-8.70.12.0/qedf_main.c:161-207 | the loop ends; requests since the last reset never exceed the limit, over any number of calls |
| `Vlan.Discovery.Reset` | qedf-8.70.12.0/qedf_main.c:400-406 | the reset of the counter |
| `Vlan.Discovery.SetVlanId` | qedf-8.70.12.0/qedf_main.c:150-158 | the stored tag gives back id and priority if and only if the id has 12 bits, and means no VLAN only for id 0 at priority 0 |
| `Vlan.Discovery.HandleLinkUp` | qedf-8.70.12.0/qedf_main.c:347-388 | the VLAN that was already set, if an attempt is left and nothing stops the loop; else the VLAN of the first response if it comes before the last attempt; otherwise the fallback, even when the last request was answered |
| `Fip.FindVlan` | qedf-8.70.12.0/qedf_fip.c:93-106 | on every well-formed list the walk returns the VLAN of the last VLAN descriptor |
| `Fip.ClearsLink` | qedf-8.70.12.0/qedf_fip.c:256-308 | a reset exactly when some MAC and some name descriptor match the FCF and the last VN_ID descriptor, if any, names us |
| `Fip.Inspect` | qedf-8.70.12.0/qedf_fip.c:260-302 | the switch on one descriptor |
| `Fip.LastDecides` | qedf-8.70.12.0/qedf_fip.c:93-106 | the last descriptor of its type decides; without one the VLAN is 0 and the list is for us |
| `Fip.FieldsDecode` | qedf-8.70.12.0/qedf_fip.c:256-302 | a descriptor gives back the MAC address, name or port it was built from |
| `Fip.BuildVlanRequest` | qedf-8.70.12.0/qedf_fip.c:16-60 | the frame is a FIP VLAN request: version, operation and subcode, and a well-formed list of a MAC and a name descriptor, with the matching header length |
| `ScatterGather.MapSg` | qedf-8.70.12.0/qedf_io.c:482-538 | the table holds the list, in bounds, its lengths add up, and it is slow exactly for writes of more than 8 elements with a short inner one |
| `ScatterGather.AddressKept` | qedf-8.70.12.0/qedf_io.c:520-522 | the two halves give back the address |
| `ScatterGather.InitSglContext` | qedf-8.70.12.0/drv_scsi_fw_funcs.c:24-47 | the cache is the beginning of the list |
| `ScatterGather.InitRwTask` | qedf-8.70.12.0/drv_e4_fcoe_fw_funcs.c:33-114 | modes, counts and cache of the context; the validation byte survives |
| `ScatterGather.BuildTask` | qedf-8.70.12.0/qedf_io.c:598-738 | through all the functions: a write is slow exactly with more than 8 elements and a short inner one, a read never, a control request like a write but on the receive side; too many elements are refused; the transfer length is in the context, and is what the table holds |
| `IscsiTask.WriteAgrees` | qedi-8.70.12.0/drv_e4_iscsi_fw_funcs.c:399-477 | SQE and context of a write agree: lengths (in the SQE if and only if below 2^24), list hints, slow mark, bounds on unsolicited data |
| `IscsiTask.HintsAgreeIff` | qedi-8.70.12.0/drv_e4_iscsi_fw_funcs.c:407-464 | the two list hints agree if and only if there is data to send, no data at all, or no list |
| `IscsiTask.TaskSize` | qedi-8.70.12.0/drv_e4_iscsi_fw_funcs.c:25-45 | the size is the data of the task, and differs only for DIF on the network, where it is the size of the list |
| `IscsiTask.SgesHint` | qedi-8.70.12.0/drv_e4_iscsi_fw_funcs.c:79-93 | 15 for a slow list, otherwise its length but at most 8 |
| `IscsiTask.MaxUnsolicited` | qedi-8.70.12.0/drv_e4_iscsi_fw_funcs.c:262-271 | never above FirstBurstLength; zero for InitialR2T=Yes with ImmediateData=No |
| `IscsiTask.UnsolicitedBounds` | qedi-8.70.12.0/drv_e4_iscsi_fw_funcs.c:259-271 | when the whole task may go out unsolicited |
| `IscsiTask.Sqe.Init` | qedi-8.70.12.0/drv_e4_iscsi_fw_funcs.c:58-129 | the packed fields of the SQE do not disturb one another |
| `IscsiTask.Context.SetExpDataAcked` | qedi-8.70.12.0/drv_e4_iscsi_fw_funcs.c:248-286 | exp_data_acked for the four task types |
| `IscsiTask.Context.InitRw` | qedi-8.70.12.0/drv_e4_iscsi_fw_funcs.c:399-477 | all lengths, hints and marks of context and SQE, for the four task types |
| `AllocRace.Bounded` | qedf-8.70.12.0/qedf_io.c:331-380 | with k threads inside, a port never counts more than 511 + k requests, free_list_cnt and the number of free requests never fall below 17 - k, and no request is handed out twice |
| `AllocRace.PortBoundReachedIff` | qedf-8.70.12.0/qedf_io.c:331-374 | some interleaving counts 511 + k requests on a port if and only if k <= 3585 |
| `AllocRace.ReserveReached` | qedf-8.70.12.0/qedf_io.c:340-377 | with eight ports some interleaving brings free_list_cnt down to 17 - k, and to 0 from 17 threads on |
| `AllocRace.ScanFailsIff` | qedf-8.70.12.0/qedf_io.c:348-363 | with eight ports a caller that passed both tests can find no free request if and only if at least 18 threads are inside |
| `AllocRace.MoveKeeps` | qedf-8.70.12.0/qedf_io.c:331-380 | every step of allocation and release keeps both counters exact and the bounds behind these results |
| `TaskMemory.TasksDisjoint` | qedf-8.70.12.0/qedf.h:513-517 | distinct task ids have disjoint memory when the blocks are disjoint and large enough |
| `TaskMemory.RequestsDisjoint` | qedf-8.70.12.0/qedf_io.c:389-398 | two requests of the pool never share task memory or a descriptor table |
| `TaskMemory.TaskAt` | qedf-8.70.12.0/qedf.h:513-517 | the first task of a block is at its base and neighbours are one task size apart |
| `TaskMemory.WithinBlock` | qedf-8.70.12.0/qedf.h:513-517 | a task stays within its block |
| `Sessions.Adapter.LoginBegins` | qedf-8.70.12.0/qedf_main.c:1900-1945 | the check of the limit, before the login sleeps |
| `Sessions.Adapter.LoginEnds` | qedf-8.70.12.0/qedf_main.c:1945-1981 | num_offloads counts the ports that are ready or uploading, never exceeds 1023 + k with k logins inside at once, and 1024 when they do not overlap |
| `Sessions.Adapter.LogoBegins` | qedf-8.70.12.0/qedf_main.c:2014-2021 | a logout begins once |
| `Sessions.Adapter.Upload` | qedf-8.70.12.0/qedf_main.c:1846-1862 | the session goes down while the port still counts |
| `Sessions.Adapter.LogoEnds` | qedf-8.70.12.0/qedf_main.c:2022-2034 | the port stops counting |
| `Sessions.Crowd` | qedf-8.70.12.0/qedf_main.c:1900-1981 | k overlapping logins do bring the count to 1023 + k |

## Left out

- Task management requests (qedf_io.c:2553-2760): the submitter's reference is dropped twice there.
- Sequence cleanup for tape (qedf_els.c:740-812) and the REC answers that lead to it.
- Liveness: that every handler is eventually scheduled. `Drain` shows that a run to the empty pool exists.
- Interleaving inside a handler, for example between the flag check and IN_ABORT in `qedf_initiate_abts`.
- free_sqes under aborts, cleanups and ELS: only the read/write accounting of `Rings.SendQueue` is modelled.
- The NULL pointer that a second release of a request, possible only after a hazard, would follow to its port:
  the model counts the free request again and leaves the ports alone.
- Enforced lossless mode, soft reset and fip_special mode in `Link` and `Vlan`.
- Malformed FIP frames: the walks have no guard against zero or oversized lengths.
- The retry-delay timer, the BDQ producer, unsolicited frames, NPIV, statistics, tracing and error injection.
- Layout of the firmware structures beyond the fields the builders write; DIF contexts; target-mode iSCSI
  beyond sizes and acknowledged data.
- Doorbells, DMA, memory barriers, interrupts, qed, libfc and libfcoe calls.
- CommandManager.Manager.RecCompl: leaves out the answers that lead to sequence cleanup.
- Fip.FindVlan: assumes a well-formed descriptor list.
- Fip.ClearsLink: assumes a well-formed descriptor list.
- Link.Adapter.HandleLinkUpdate: models the link-down timeout only; the VLAN request of the link-up branch is
  `Vlan.Discovery.HandleLinkUp`.
- Sessions.Adapter.LoginBegins: leaves the number of logins inside at once to the caller.
