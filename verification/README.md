# ground, verified

A Dafny model of the two cores of the `ground` crate, with proofs of what they promise:

* the edge-triggered readiness protocol: `Async` values, their waiters, the epoll reactor, the
  two-phase `connect`, and the executor's loop;
* the DNS wire codec: the query builder, the name scanner, the response parser and the iterator of
  address records.

`dafny verify dfyconfig.toml` checks everything.

## The readiness protocol

| file | contents |
|---|---|
| `Epoll.dfy` | masks, and one epoll instance as a value: interest map, readiness of each file, ready list |
| `Protocol.dfy` | the protocol as a state machine of atomic steps, with schedules and runs |
| `Invariant.dfy` | what every step keeps |
| `Readiness.dfy` | what holds in every reachable state |
| `WakeUp.dfy`, `Batch.dfy` | when a pending task is woken; a batch of deliveries as a whole |
| `Hearing.dfy` | which edges a blocked read, write or both hears, in the kernel's bits |
| `AlwaysTry.dfy` | the short-circuit against a poller that tries its operation every time |
| `Stall.dfy` | exactly which skipped polls can lose track of readiness |
| `Reactor.dfy`, `Runtime.dfy` | the reactor, the waiters and the `Async` values as objects updated in place; each operation is proved to be a run of the state machine |
| `Connect.dfy`, `ConnectProgress.dfy`, `ConnectRun.dfy` | the connect future, driven by polls that the short-circuit holds back: safety; that it ends, and how; as an object polled from a thread |
| `Executor.dfy` | the executor's loop over those objects |

**Tasks and the kernel.** A step is a poll, an `epoll_ctl` call, a take or drop, an `epoll_wait`, the delivery
of one event, a task switch, or something the kernel does on its own. The kernel may act between any
two steps, in particular between an operation's WouldBlock and the `epoll_ctl` that follows. A run is
any schedule of such steps; nothing bounds the number of tasks, values, files or steps.

**Masks.** A 32-bit word is the set of the positions of its one bits, with EPOLLIN 0x1, EPOLLOUT 0x4,
EPOLLERR 0x8, EPOLLHUP 0x10 and EPOLLET 0x8000_0000; `|`, `&` and `& !` are union, intersection and difference.

**Pointers.** The kernel holds the address of a waiter. Addresses are reused after a drop. An event whose
address has no live waiter is a run that goes wrong, and so is an `epoll_ctl` call that the kernel refuses
(the source panics on it); both are proved impossible.

**What is assumed of the environment.** These are the enabling conditions of the steps, so every theorem holds
under them and nothing else is assumed:

* ADD and MOD look at the file once under the new mask and queue it if it is ready; an edge on a bit a
  file is registered for queues it; DEL takes it off the ready list; errors and hang-ups are always reported.
* An operation fails with WouldBlock only if its file is ready for none of the bits it needs. It may also
  succeed, or fail in another way, at any time; it uses up only readiness it asked for.
* Two live values never hold the same file, and each is polled by the one task that owns it, which never
  polls a value whose inner file was taken (the source panics there).
* Taking, dropping and dispatching follow the assertions of the source: no deletion and no dispatch
  while events are being delivered. The reactor lives in one thread.

`awaited` and `missed` are bookkeeping of the model: the bits whose last poll in the owner's current run
was Pending, and those among them for which that poll was skipped although the value was not waiting for
them. Only a `ReadWrite` poll of a value that waits for one of the two bits can miss the other.

Where skipping is compared with trying (`AlwaysTry.dfy`), an operation fails with WouldBlock *exactly* when
its file is ready for none of the bits it needs.

## The DNS codec

| file | contents |
|---|---|
| `DnsName.dfy` | big-endian integers; names on the wire |
| `DnsQuery.dfy` | the query builder, writing into a byte array |
| `DnsResponse.dfy` | the parser and the iterator, updating their state in place |
| `DnsRoundTrip.dfy` | an independent encoder of whole responses (RFC 1035, sections 4.1.1 to 4.1.3; RFC 3596, sections 2.1 and 2.2), and the parser against it |
| `DnsIteration.dfy` | the iterator on arbitrary bytes |

The grammar of names is the code's: a length byte of 1 to 127 starts a label and any byte from 128 up starts a
two-byte pointer. The names of RFC 1035 (labels of at most 63 bytes, section 2.3.4; pointers from
0xC0 up, section 4.1.4) are among them.

## What the proofs found

* **`ReadWrite` can stall.** The short-circuit at src/io.rs:436 fires as soon as *one* bit of the interest is
  waited for. For `ReadWrite` that can be a bit left over from an earlier poll while the other is neither
  waited for nor, perhaps, registered for, though the documentation at src/io.rs:36-37 promises
  readable *or* writable. The exact condition can be read off the masks before the poll: the interest
  meets `waiting_for` without being within it. A run without such a poll never sleeps over available work
  (`ReadWriteStall.FullSkipsNeverStall`); any other run goes through one from which the program can go on to
  sleep beside a ready file (`ReadWriteStall.HalfSkipsStall`), and stay asleep until the kernel makes some file
  ready or a task is spawned (`ReadWriteStall.AsleepForGood`). Polls for reading or for writing alone are never of
  this kind (`ReadWriteStall.SingleInterestsNeverStall`). `ReadWriteStall.ReadWriteStalls` is one such run in full;
  in `AlwaysTries.ReadWriteIsNotServed` the stall follows on a `ReadWrite` poll that was itself skipped in full.
* **`connect` can report a false success.** If connect(2) itself answers EAGAIN, the closure takes that for
  a handshake under way. `Connect.EagainReadsAsSuccess` is a run that ends in success on a socket that was
  never connected, contrary to the comment at src/net.rs:190-194; `Connect.ConnectIsCorrect` proves that success means an established
  connection if and only if connect(2) did not answer EAGAIN.
* **The iterator is not fused.** After a record whose fields or data are cut short, the name is gone but
  the record still counts, so a later call may yield a record read from the wrong place
  (`DnsIteration.RecordAfterError`). An error is repeated for ever, and the state with it, if and only if answers are
  left and no name can be read there (`DnsIteration.ErrorIsFinalExactly`). What later calls read is the packet's own,
  one encoded answer after the other, if and only if no earlier call was cut short in this way
  (`DnsIteration.AlignedExactly`, `DnsIteration.GenuineUntilTorn`); an address of the wrong length is a harmless error.

## Model

| member | source | states |
|---|---|---|
| Epoll.HarvestReports | src/reactor.rs:167-174 | a file taken off the ready list by epoll_wait was reported in full to the waiter registered for it, or had nothing to report |
| Epoll.HarvestSources | src/reactor.rs:182-184 | every event carries the datum and current readiness of a registered file that was queued |
| Invariant.PollKeepsInv | src/io.rs:428-452 | a poll, whatever its operation does, keeps the protocol's invariant |
| Invariant.RegisterKeepsInv | src/io.rs:166-189 | the epoll_ctl after a WouldBlock is always accepted and keeps the invariant, whatever the kernel did in between |
| Invariant.TakeKeepsInv | src/io.rs:303-310 | taking the inner file is never refused by the kernel and keeps the invariant |
| Invariant.DropKeepsInv | src/io.rs:523-527 | dropping a value is never refused by the kernel and keeps the invariant |
| Invariant.WaitKeepsInv | src/reactor.rs:155-177 | moving up to 512 events from the ready list into a batch loses nothing |
| Invariant.DeliverKeepsInv | src/reactor.rs:133-146 | delivering one event never meets a dead address and keeps the invariant |
| Invariant.StepKeepsInv | src/io.rs:166-204 | every step of the protocol, kernel steps included, succeeds and keeps the invariant |
| Readiness.RunsNeverGoWrong | src/reactor.rs:177-186 | no schedule makes an epoll_ctl fail or delivers to an address without a live waiter |
| Readiness.NoLostReadiness | src/io.rs:436-448 | in every reachable state a bit that is waited for and ready is on the ready list or in the undelivered part of the batch, also when the edge falls between WouldBlock and epoll_ctl |
| Readiness.LivePointers | src/reactor.rs:133-146 | interest map, ready list and batch only ever lead to live, registered waiters |
| Readiness.RegistrationAgreement | src/io.rs:166-204 | register_for is non-zero exactly when the kernel has this waiter with this mask; waiting_for is within register_for; one ADD, MOD and DEL at most per value |
| Readiness.UnionForMembers | src/reactor.rs:178-185 | a bit is cleared from a waiter by a batch exactly when some event of the batch for it has the bit |
| Readiness.WaitedForIsReported | src/reactor.rs:167-174 | for any interest, between runs, a bit waited for and ready makes the next epoll_wait return at once |
| Readiness.NeverSleepsOverWork | executor/src/lib.rs:25-34 | with all tasks suspended and none woken, a ready bit awaited by any task, and not missed by a half-skipped poll, makes the next epoll_wait return at once, whatever the interests |
| WakeUp.HarvestMovesForward | src/reactor.rs:163-174 | a file left on the ready list by an epoll_wait moves up by 512 places at least |
| WakeUp.BoundedWakeUp | src/reactor.rs:155-188 | a ready bit waited for by the file at place k of the ready list is delivered and its owner woken within k/512 + 1 dispatches of any run |
| WakeUp.NextPollTries | src/io.rs:436-448 | once delivered, and however the run goes on, the next poll of that value for that bit tries the operation |
| Hearing.BlockedMasks | src/io.rs:41-47 | a blocked poll and its epoll_ctl leave waiting_for with bit 0 for a read, 2 for a write, both for both, added, and registered the same with bit 31, in the waiter and in the kernel |
| Hearing.ReadHears | src/io.rs:428-452 | after a read that blocked, any edge of bit 0 queues the file; with n files queued the owner is woken within n/512 + 1 dispatches and the next read poll tries |
| Hearing.WriteHears | src/io.rs:428-452 | the same for a write and bit 2 |
| Hearing.ReadWriteHears | src/io.rs:428-452 | the same for both and either bit, the next poll being tried exactly if the other bit is not waited for |
| Hearing.ReadHearsNothingElse | src/io.rs:436-441 | without an edge of bit 0, whatever else happens, a read that blocked would go on blocking and its polls stay skipped |
| Hearing.WriteHearsNothingElse | src/io.rs:436-441 | the same for a write and bit 2 |
| Hearing.StepHoldsBack | src/io.rs:436-441 | whatever the program and the kernel do, a bit waited for and not ready stays so until its own edge |
| AlwaysTries.SkipIsAFailedTry | src/io.rs:436-450 | skipping a poll has the very effect of trying and failing with WouldBlock, if and only if its whole interest is waited for |
| AlwaysTries.SkippedWouldBlockExactly | src/io.rs:436-441 | for any interest, a skipped operation on an unqueued file would fail with WouldBlock if and only if no ready bit of the interest is outside waiting_for |
| AlwaysTries.ShortCircuitIsSound | src/io.rs:436-441 | when the whole interest is waited for and the file is not queued, the operation would fail with WouldBlock and skipping it equals trying it |
| AlwaysTries.StepsAgreeExactly | src/io.rs:436-450 | a skip and a try end in the same state if and only if the whole interest is waited for and the operation would fail with WouldBlock |
| AlwaysTries.AnyRunIsTries | src/io.rs:428-452 | over any run and any interests: without its wasted polls the run is a run of the poller that has no short-circuit, with the same end for every waiter, the kernel and the tasks |
| AlwaysTries.WastedExactly | src/io.rs:436-450 | the wasted polls are exactly those at which a skip and a try end differently; if the whole interest is waited for, the operation would have gone ahead and its file is queued |
| AlwaysTries.WastedIsServed | src/io.rs:436-448 | such a poll only waits: with n files queued, within n/512 + 1 dispatches the owner is woken and a ready bit lifted, and the next poll for that bit tries, always for reading or writing, and for `ReadWrite` exactly if the other bit is not waited for by then |
| AlwaysTries.ReadWriteIsNotServed | src/io.rs:436-441 | a reachable wasted `ReadWrite` poll with both bits waited for, and a continuation in which its next poll is skipped by half and all sleep over the ready bit |
| AlwaysTries.OnlyWastedLeftOut | src/io.rs:428-452 | the run compared with that poller has all polls and steps of the program's run but the wasted polls |
| AlwaysTries.RunsAreTries | src/io.rs:428-452 | a run whose skips are all full and of unqueued files is, step for step, a run of that poller, with the very same end |
| AlwaysTries.TriesAreRuns | src/io.rs:428-452 | conversely, a run of that poller in which no poll would be skipped otherwise is a run of the program, with the same end |
| Batches.BatchIsAFold | src/reactor.rs:177-187 | delivering a batch clears from each waiter the union of its event masks, wakes exactly the wakers of the waiters in it, changes nothing else |
| Batches.BatchOrderIrrelevant | src/reactor.rs:178-185 | the result depends neither on the order of the events nor on their repetition |
| ReadWriteStall.FullSkipsNeverStall | src/io.rs:436-441 | a run that skips polls only when their whole interest is waited for never sleeps with an awaited bit ready, `ReadWrite` included |
| ReadWriteStall.SingleInterestsNeverStall | src/io.rs:436-441 | a run that polls only for reading or only for writing, in any mixture, skips only in full and never sleeps over an awaited ready bit |
| ReadWriteStall.HalfSkipCanStall | src/io.rs:436-441 | from any reachable state, a poll skipped without waiting for its whole interest can be followed by a sleep with the missed bit awaited and ready and the file unqueued |
| ReadWriteStall.HalfSkipsStall | src/io.rs:436-441 | every run with such a poll goes through one that can be followed by such a sleep |
| ReadWriteStall.AsleepForGood | executor/src/lib.rs:25-34 | with nobody running, nobody woken and nothing to report, this stays so in every run until the kernel makes a file ready or a task is spawned |
| ReadWriteStall.ReadWriteStalls | src/io.rs:36-47 | one such run in full, down to a reachable state in which a `ReadWrite` operation would go ahead, no task is woken and dispatch has nothing to report |
| Reactors.Reactor.Add | src/reactor.rs:72-84 | registers the waiter's address under its register_for; refused exactly for a registered file |
| Reactors.Reactor.Modify | src/reactor.rs:89-101 | replaces the registration; refused exactly for an unregistered file |
| Reactors.Reactor.Delete | src/reactor.rs:117-126 | forbidden during dispatch; removes the file from interest map and ready list |
| Reactors.Reactor.DeliverEvent | src/reactor.rs:133-146 | clears exactly the reported bits of the waiter at the event's address and wakes its waker |
| Reactors.Reactor.DeliverEvents | src/reactor.rs:178-185 | the loop clears from each waiter the union of its event masks and wakes exactly their wakers |
| Reactors.Reactor.Dispatch | src/reactor.rs:155-188 | one epoll_wait of at most 512 events and their deliveries; is_dispatching is false however it ends; on an error nothing changes |
| Runtime.Async.constructor | src/io.rs:146-160 | a new value holds its file, waits for nothing and is not registered |
| Runtime.Async.EnsureRegistered | src/io.rs:166-189 | extends the registration edge-triggered; no call if nothing is new, ADD the first time, MOD after that, acting on the kernel as it is by then |
| Runtime.Async.PollNonblocking | src/io.rs:428-452 | skips exactly when a bit of the interest is waited for; otherwise tries, and on WouldBlock leaves waker, waiting_for and registration in place |
| Runtime.Async.Deregister | src/io.rs:192-204 | DEL exactly when registered and the file is present; register_for is then zero |
| Runtime.Async.TakeInner | src/io.rs:303-310 | deregisters, hands out the file and leaves the value empty |
| Runtime.PollRun | src/io.rs:428-452 | one poll with whatever the kernel does during it is a run of the protocol that ends in the state the objects have |
| Runtime.DispatchRun | src/reactor.rs:155-188 | a whole dispatch is a run of the protocol: one wait, one delivery per event |
| Runtime.Thread.Poll | src/io.rs:553-560 | a poll by the running task takes the thread along a run of the protocol, from any reachable state |
| Runtime.Thread.New | src/io.rs:146-160 | wrapping a file adds a fresh value at an unused address |
| Runtime.Thread.Take | src/io.rs:303-310 | taking the file out is the protocol's step, from any reachable state |
| Runtime.Thread.Drop | src/io.rs:523-527 | a dropped value is deregistered before its memory is free, from any reachable state |
| Runtime.Thread.Dispatch | src/reactor.rs:155-188 | dispatch over live objects is a run of the protocol; when it has to sleep with no task woken, no awaited bit is ready unless it was missed by a half-skipped poll |
| Connect.MoveKeeps | src/net.rs:173-201 | polls of the future, the end of the handshake and all other steps keep the invariant of the connection |
| Connect.ConnectIsCorrect | src/net.rs:173-201 | in every run connect(2) is called at most once, take_error never during the handshake, an error is the kernel's own, success means established if and only if connect(2) did not answer EAGAIN |
| Connect.EagainReadsAsSuccess | src/net.rs:183-199 | a run in which connect(2) answers EAGAIN and the step succeeds on an unconnected socket |
| Connect.HandsOver | src/net.rs:202-203 | the socket can then always be taken out and wrapped afresh, and the kernel no longer knows it |
| ConnectProgress.FirstAttempt | src/net.rs:177-188 | the first poll that is tried calls connect(2) once and ends at once with its success or error; only EINPROGRESS and EAGAIN (11) leave it pending |
| ConnectProgress.LastAttempt | src/net.rs:189-199 | after the handshake a poll that is tried asks for the error once and ends: success if established, and otherwise with the error of the socket |
| ConnectProgress.ResolvedIsQueued | src/net.rs:173-201 | when the handshake ends the socket is on the ready list |
| ConnectProgress.RaceIsQueued | src/io.rs:444-448 | so it is when the handshake ends between WouldBlock and the epoll_ctl call, once that has been made |
| ConnectProgress.ConnectEnds | src/net.rs:173-201 | the socket being entry k of the ready list, the task is woken within k/512 + 1 dispatches and its next poll ends the step: success if and only if there was no error, and otherwise with that error |
| ConnectRuns.ElsewheresPlay | src/net.rs:173-201 | any run of the rest of the program, kernel included, is a run of the system that leaves future and invariant alone |
| ConnectRuns.PollFuture | src/net.rs:173-201 | polling the future object on a thread, closure, registration and race included, is a run of that system |
| ConnectRuns.RunFuture | src/net.rs:158-204 | a future object on a thread, polled spuriously or not among any tasks, dispatches and kernel steps: connect(2) once at most, no early take_error, only the kernel's errors, success exact as in ConnectIsCorrect |
| Executor.LoopIsSafe | executor/src/lib.rs:25-34 | over all runs of the loop and any tasks: nothing goes wrong, each turn that goes on makes one epoll_wait, and every sleep is with no task woken and no awaited bit ready unless it was missed by a half-skipped poll |
| Executor.LoopWakes | executor/src/lib.rs:25-34 | a ready bit waited for by the file at place k of the ready list wakes its owner within k/512 + 1 turns |
| Executor.LoopRunsTask | executor/src/lib.rs:25-34 | and the owner is run before the pool next stalls |
| Executor.StallSleepsIdly | executor/src/lib.rs:25-34 | wherever the pool stalls, if the loop must sleep there no awaited bit is ready unless it was missed by a half-skipped poll |
| Executor.SleepsAreRecorded | executor/src/lib.rs:31-33 | every dispatch with nothing to report is among the sleeps that the safety results speak of |
| Executor.ReceivedExactly | executor/src/lib.rs:28 | the receiver finds the first output that was sent, and nothing if and only if none was |
| Executor.ReturnsExactly | executor/src/lib.rs:20-30 | unless it hangs, the loop returns v if and only if the main future sends v, first of its outputs, and no dispatch failed before |
| Executor.ReturnsAtOnce | executor/src/lib.rs:28-33 | the loop returns at the end of the turn in which the main future ran and sent, without another dispatch; it panics only after a failed dispatch, hangs only with nothing to report in the turn after those that dispatched, and goes on only while nothing was sent |
| Executor.RunUntilStalled | executor/src/lib.rs:26-28 | runs the pool until no task is woken; it has received the first output sent, or nothing if none was |
| Executor.WaitForEvents | executor/src/lib.rs:32-33 | one dispatch; a failure panics, and with nothing to report it sleeps until the kernel acts |
| Executor.Run | executor/src/lib.rs:9-35 | the loop over live objects follows the specification turn by turn, never goes wrong, sleeps over no awaited ready bit but a missed one, and returns v if and only if v was sent, first and before a dispatch failed, unless it hangs |
| DnsNames.ScanName | src/dns.rs:128-143 | returns for every byte sequence, without slicing out of range, the size found by the specification |
| DnsNames.NameSizeExactly | src/dns.rs:128-143 | Ok(n) exactly when the first n bytes are a well-formed name |
| DnsNames.NameSizeLocal | src/dns.rs:128-143 | the answer depends on the first n bytes only |
| DnsNames.SizeOfEncoded | src/dns.rs:128-143 | the scanner finds the end of any encoded name, whatever follows |
| DnsNames.DecodeOfEncode | src/dns.rs:128-143 | reading an encoded name back gives the name |
| DnsNames.EncodeOfDecode | src/dns.rs:128-143 | whatever is accepted is the encoding of what is read |
| DnsNames.PrefixFree | src/dns.rs:128-143 | no name's encoding is the beginning of another's |
| DnsNames.TruncatedName | src/dns.rs:128-143 | a name cut short anywhere is InvalidData |
| DnsQueries.JoinOfSplit | src/dns.rs:110 | splitting cuts a name at its dots and nowhere else |
| DnsQueries.LabelsInOrder | src/dns.rs:110-113 | a name without empty parts is its labels in order with dots between |
| DnsQueries.MakeQueryPacket | src/dns.rs:91-126 | panics exactly when a label exceeds 127 bytes or the packet does not fit; otherwise writes the packet and no byte beyond it |
| DnsQueries.PacketSize | src/dns.rs:110-125 | 17 bytes and len + 1 for each non-empty label, at most the name's length and 18 |
| DnsQueries.PacketHeader | src/dns.rs:103-108 | ID 0, flags 0x0120, one question and no records |
| DnsQueries.PacketReadsBack | src/dns.rs:103-123 | from offset 12 the scanner ends 4 bytes before the end; decoding gives the labels, and type and class follow |
| DnsQueries.PacketInjective | src/dns.rs:91-126 | two packets are equal if and only if types and non-empty labels are |
| DnsResponses.ParseResponsePacket | src/dns.rs:145-181 | on every byte sequence returns, without slicing out of range, the iterator or error of the specification |
| DnsResponses.Records.Next | src/dns.rs:302-354 | on every state returns, without slicing out of range, what the specification says, and leaves the state it says |
| DnsRoundTrip.DrainOfEncoded | src/dns.rs:302-354 | iterating over any encoded answers yields the class-IN A and AAAA records in order, up to the first of the wrong length |
| DnsRoundTrip.ResponseRoundTrip | src/dns.rs:145-181 | parsing and exhausting any well-formed response, whatever follows it, yields exactly its address records, then None |
| DnsRoundTrip.DrainOfTruncated | src/dns.rs:302-318 | answers cut short yield a beginning of the full list, then InvalidData |
| DnsRoundTrip.TruncatedResponse | src/dns.rs:165-175 | a response cut short anywhere is refused with InvalidData or yields a beginning of its records, then InvalidData |
| DnsRoundTrip.ParsesExactly | src/dns.rs:145-181 | a packet parses exactly when its header fits and the declared number of well-formed questions follows, with something after them; iteration starts right there |
| DnsRoundTrip.AcceptedExactly | src/dns.rs:145-181 | parsing and iterating reach the end without an error exactly on well-formed responses, whatever follows them |
| DnsRoundTrip.PacketIsOneQuery | src/dns.rs:103-123 | by its own header's count the packet's questions are skipped exactly, whatever follows |
| DnsRoundTrip.RefusedByHeader | src/dns.rs:154-163 | whatever follows: InvalidData without the response bit; otherwise NotFound for code 3 or no answers; otherwise Other for a code but 0 |
| DnsRoundTrip.QueryIsRefused | src/dns.rs:154-157 | a query packet is refused as InvalidData |
| DnsRoundTrip.InvalidExactly | src/dns.rs:145-175 | InvalidData exactly for bytes shorter than a header, no response bit, or a good header whose questions do not fit |
| DnsRoundTrip.ReplyFitsQuery | src/dns.rs:166-175 | a reply that repeats a query's question and goes on is skipped exactly to its answers |
| DnsIteration.FixedExactly | src/dns.rs:303-307 | a call changes nothing exactly when no answers are left or no name can be read |
| DnsIteration.Converges | src/dns.rs:302-354 | on arbitrary bytes of length L, every call from number L on leaves the state alone and returns the same None or InvalidData |
| DnsIteration.YieldsBounded | src/dns.rs:303-321 | any number of calls yields at most answer_count records, and at most one per 15 bytes |
| DnsIteration.CallsOfEncoded | src/dns.rs:302-354 | on any encoded answers, whatever follows, the calls return what the answers say in order, errors for wrong-length addresses included, then None for ever |
| DnsIteration.ErrorIsFinalExactly | src/dns.rs:303-317 | after an error all later calls repeat it and change nothing, if and only if answers are left and no name can be read |
| DnsIteration.GenuineUntilTorn | src/dns.rs:302-354 | as long as no call is cut short after a name, errors or not, the calls take encoded answers off the buffer and return what these say, then one fixed end |
| DnsIteration.AlignedExactly | src/dns.rs:303-321 | the bytes taken by n calls are encoded answers, one for each the count went down by, if and only if none of them was cut short after a name |
| DnsIteration.TornStandsAfterName | src/dns.rs:304-318 | a record cut short after its name leaves the iterator right after the name, the record still counted, and returns InvalidData |
| DnsIteration.RecordAfterError | src/dns.rs:308-318 | an iterator that is cut short after a name, returns InvalidData, and then a record that is not the packet's |

## Left out

- System calls: real descriptors, errno conversion, fcntl, the kernel's allocation failures, close and `Reactor::new`.
- Wakers: a waker is the task it wakes; cloning, dropping and vtables are not modelled, nor is a waker that runs code.
- Pinning: that a waiter does not move is its fixed address and the identity of its object.
- One value shared by tasks: the single waker slot, overwritten on each WouldBlock and not refreshed by a skipped poll, is modelled, but each value has one owner task.
- I/O on the inner file around the poll, through `get_ref`, `get_mut`, `pin_get_mut` or `into_inner`, and the debug assertions of `into_inner`.
- Forwarding wrappers: `AsyncRead`, `AsyncWrite`, `AsyncBufRead`, `accept`, `incoming`, `Debug`, and src/unix.rs.
- Address resolution and socket creation in `connect`; errors of take_error itself (getsockopt).
- The socket and receive loop of `dns::query`; the query type is a parameter of the builder instead of `as_type` of an address family.
- The scheduling order of the pool, and the spawner's and channel's internals: a turn of the loop is any sequence of task runs that leaves no task woken; endless loops are covered by their finite beginnings.
- DnsQueries.MakeQueryPacket: does not say which bytes a panicking call has already written.
- Reactors.Reactor.Dispatch: a sleeping epoll_wait is a result of its own, and leaves files that are no longer ready on the ready list until it returns; the loop in `Executor` lets the kernel act and calls again.
- Runtime.Thread.Dispatch: says nothing about the bits missed by half-skipped polls, for which the claim is false (`ReadWriteStall.HalfSkipCanStall`).
- ConnectRuns.PollFuture: tests the short-circuit before it calls the closure, since what the closure answers is an argument of the poll.
