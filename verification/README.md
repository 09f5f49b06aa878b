# Verified model of the inter-subsystem messaging stack

The real-time subsystem exchanges 64-byte messages with its peers over *links*. A link
writes a message and announces it; the other side reads it, withdraws the announcement
and acknowledges; the sender's ACK callback wakes the requesting task. There are two
transports, a shared-memory region with a status word and a mailbox channel with event
registers. On the server side an arriving message becomes a queued command, a handler
task serves it and sends the reply back over the same link.

This project models that stack in Dafny and proves what it promises: over all runs,
under every interleaving of the tasks, pollers and interrupt handlers involved.

## How it is organised

| file | content |
|---|---|
| `Options`, `Messages`, `Words` | missing values, bytes, the 64-byte image of a message, registers as bytes |
| `Runs`, `Transport`, `SlotChannel` | machines in small steps, their runs and traces, the one-slot channel, what it takes to be one |
| `ShmemStatus`, `Shmem`, `Link` | status word, copy loops, region, request context and link as classes |
| `ShmemProtocol`, `ShmemSequential`, `ShmemEarlyWrite`, `ShmemScheduling` | the shared-memory protocol word by word; its steps against the class methods; the race without the discipline, that the discipline is exact, and where it comes from |
| `MboxRegs`, `MboxDriver`, `LinkMbox` | register bits, the mailbox device as a class, mailbox links and interrupt scans |
| `MboxProtocol`, `MboxSequential`, `MboxAckFirst`, `MboxScheduling` | the mailbox protocol register by register; its steps against the class methods; what the wrong order of clearing and acknowledging does; where the discipline comes from |
| `MboxLifetime`, `MboxOwnership`, `PollLifetime` | channels, locks, poll tasks and the memory of links; who holds which channel |
| `CommandRing`, `Command`, `CommandHandler` | the ring for every capacity, the queue as a class, the queue with its handler task and enqueuers |
| `LinkRequest`, `RequestWaits`, `RequestOverSlot` | `link_request` and `link_request_send` against late and stale callbacks; exactly when the shared event bit goes wrong; what of that remains over a one-slot channel |
| `HpscMsg`, `RequestSystem`, `RequestRuns`, `ExchangeOver`, `EndToEnd` | messages and server, clients and server over any one-slot transport, what overruns the server, completing an exchange over any transport that can be driven, the two real transports |
| `LinkStore`, `Shutdown` | the chain of open links, the order of shutting down |

Code that works in place is a class or a method with loops, proved against functions
of the old state. Code whose point is its interleaving is a transition system, an
`Enabled`/`Do` pair over actions, and its theorems quantify over all runs (`Runs.Run`).
The two descriptions meet in `ShmemSequential` and `MboxSequential`: what a method does
in one piece is what the protocol's small steps add up to.

## Assumptions

- A write on a link starts only after the previous write's ACK callback has returned
  (`Orderly` in the two protocols). Both ACK callbacks wake the requester *before* they
  clear the acknowledgement; on one core, task priorities (rtps-r52/init.c:46-50) and
  interrupt context keep the requester from running in between. With that, and no write
  after a timeout while its message is in flight, every run keeps the discipline
  (`ShmemScheduling.ScheduledIsDisciplined`, `MboxScheduling.ScheduledIsDisciplined`).
  `ShmemEarlyWrite.DisciplineIsExact` shows that the discipline is exactly what is needed.
- Word and byte accesses are sequentially consistent; a `|=` or `&=` is a load step and a
  store step.
- `rtems_event_send` sets a pending bit and repeated sends merge. Sending an EXIT event to
  a live task may fail (`SendFails`, `StopFails`, `StopSend(false)`); sending to a
  `tid_requester` that was cleared after it was checked (lib/hpsc/link.c:118-119 and
  133-134) does nothing. A lock is mutual exclusion, a chain a sequence. A wait for an
  event may time out at any moment at which the event is not pending.
- A failed `assert` and a panic are states without further steps.
- Interrupt indices are below 16, as the 32-bit enable register has room for; EVENT_CAUSE
  reads as the raised events. CONFIG after a write is whatever the hardware makes of it
  (`accept`), so a refused configuration is a case of the model.
- Message buffers do not overlap the regions and registers they are copied to or from.

## Where the code departs from its documentation or evident intent

The model follows the code, and the exact consequences are proved.

- lib/hpsc/command.c:72 tests `head + (1 % CMDQ_LEN)`, so the full check misses
  head = N - 1, tail = 0. There one enqueue empties the queue and N commands are lost
  (`CommandRing.GuardsDiffer`, `CommandRing.RingIsFifoIffNoOverflow`,
  `CommandHandler.AcceptedIsKeptPlusLoss`).
- lib/hpsc/command.c:161 (and the other lock calls) name `q.lock`; `cmdq.lock` is meant,
  and that is the lock modelled.
- lib/drivers/hpsc-mbox.c:197-198 takes the lock of a channel before the channel is
  looked up; the model looks it up first.
- lib/drivers/hpsc-mbox.c:199-201 with 235-236: a claim of a channel in use destroys the
  claim that is there (`MboxDriver.FailedClaimLeavesInactive`,
  `MboxLifetime.FailedClaimSilencesOwner`). An open link loses a channel exactly at such a
  claim or at the release by a link that lost the channel before
  (`MboxOwnership.ChannelLostExactly`), and never if nobody asks for a channel in use
  (`MboxOwnership.OpenLinkKeepsChannels`).
- lib/drivers/hpsc-mbox.c:218 compares the destination with the requested source. That is
  the check meant if and only if no destination is checked or the request names the same
  source and destination (`MboxDriver.DestinationCheck`); every other such request is
  refused on just the channels it is meant for (`MboxDriver.MatchingClaimIsRefused`).
- lib/hpsc/link-mbox.c:112 gives the first channel back after the second was refused.
  If a server names one channel twice, the second claim has already forgotten the owner,
  so nothing resets CONFIG and the channel stays configured with no link
  (`LinkMbox.FailedConnectConfig`).
- lib/drivers/hpsc-mbox.c:525-526 releases channels that were never claimed and whose
  register pointer was never set: removing a device faults if and only if some channel
  has never been claimed (`MboxDriver.Mbox.Remove`).
- lib/hpsc/link-mbox.c:48-63 and lib/hpsc/link-shmem.c:48-65 free the link even if
  releasing the channels or stopping the poll tasks failed. With poll tasks that is safe
  if and only if every EXIT event was sent (`PollLifetime.SafeIffEverySendSucceeds`); a
  close in an interrupt, if and only if the link's callbacks are on no channel any more
  (`MboxLifetime.CloseInInterruptSafeIff`).
- rtps-r52/shutdown.c:73-75 goes on if the handler could not be stopped. That is harmless
  if no handler was running or no link is stored, and only then
  (`Shutdown.UnsafeExactly`).
- lib/hpsc/link.c:79-80 returns with `tid_requester` still set (`LinkRequest.TidAfterCall`).
- lib/hpsc/link.c:119 and 134 use one event bit for ACK and reply. Three things can go
  wrong, and for each `RequestWaits` has the steps that must not happen, a proof that
  nothing goes wrong without them, and a proof that each of them can make it go wrong: the
  assertion at lib/hpsc/link.c:27 fails (`AssertionHolds`, `LooseStepCanHalt`), an ACK is
  taken for the reply (`ZeroMeansEmptyReply`, `SecondAckCanBeTaken`), a reply is missed
  (`ReplyIsNoticed`, `MergingStepCanMiss`, `MissedExactly`). Over a one-slot channel, with
  a client that waits long enough, nothing stale is ever around and the second failure is
  gone; an early reply and the merging of events remain (`RequestOverSlot`), and both real
  transports let the reply overtake the ACK (`EndToEnd.ReplyFirstOverShmem`,
  `EndToEnd.ReplyFirstOverMbox`).

## Model

| member | source | states |
|---|---|---|
| `ShmemProtocol.NoUpdateLost` | lib/hpsc/shmem.c:111-127 | over every disciplined run no two processes are ever both between load and store of the status word, what each will store differs from the current word only in its own bit, and the other 30 bits never change |
| `ShmemProtocol.RunRefines` | lib/hpsc/link-shmem.c:23-46 | every disciplined run of the word-by-word protocol shows a history of the one-slot channel and ends in the channel state its memory stands for |
| `ShmemProtocol.RequestsAreSent` | lib/hpsc/link-shmem.c:31-37 | the messages announced, and the one still being stored, are exactly the images of the messages handed to write, in order, untorn |
| `ShmemProtocol.DeliveredInOrder` | lib/hpsc/link-shmem.c:23-46 | delivered is a prefix of sent, sent of requested, and acked <= delivered <= sent <= acked + 1, in every disciplined run |
| `ShmemProtocol.CanAdvance` | lib/hpsc/shmem-poll.c:31-41 | no deadlock: while a write is unacknowledged a step that is not an idle poll is possible and decreases the measure |
| `ShmemProtocol.ExchangeIsBounded` | lib/hpsc/link-shmem.c:23-46 | no livelock: in every run without a new write the steps that are not idle polls number at most the measure, and using it up means the ACK callback has returned |
| `ShmemProtocol.GoodIsDrivable` | lib/hpsc/shmem-poll.c:31-41 | from every reachable state each event the one-slot channel allows can be brought about in a bounded number of steps, none of them a timeout |
| `ShmemProtocol.TracesAreSlotTraces` | lib/hpsc/link-shmem.c:23-46 | the histories of disciplined runs are exactly those of the one-slot channel, both directions |
| `ShmemProtocol.WaitEndsByAck` | lib/hpsc/link.c:23-33 | in every disciplined run a waiting requester can go on exactly when its message has been acknowledged, and time out exactly while it is not |
| `ShmemScheduling.ScheduledIsDisciplined` | rtps-r52/init.c:46-50 | if the ACK callback is not preempted by its requester between waking it and clearing ACK, and no write follows a timeout in flight, every run is a disciplined run |
| `SlotChannel.Delivery` | lib/hpsc/link-shmem.c:23-46 | what stop-and-wait means for any history of a one-slot channel: a prefix delivered, at most one message unacknowledged |
| `ShmemEarlyWrite.EarlyWriteIsLost` | lib/hpsc/link-shmem.c:27-28 | from the start, a requester that writes again between its wake-up and the store that clears ACK can lose its second message |
| `ShmemEarlyWrite.DisciplineIsExact` | lib/hpsc/link-shmem.c:23-37 | in every reachable state with an idle requester: a write begun now can go wrong (announced into an occupied slot, or lost) if and only if the previous write's ACK callback has not returned |
| `ShmemEarlyWrite.LostForever` | lib/hpsc/shmem-poll.c:31-41 | a lost message stays lost: without another write nothing is delivered or acknowledged again |
| `ShmemSequential.WriteAddsUp` | lib/hpsc/link-shmem.c:31-37 | undisturbed, the small steps of a write leave the image in memory and raise NEW only, as the class method does |
| `ShmemSequential.ReadAddsUp` | lib/hpsc/link-shmem.c:39-46 | undisturbed, the small steps of a read deliver the memory's content, drop NEW and raise ACK |
| `ShmemSequential.AckAddsUp` | lib/hpsc/link-shmem.c:23-29 | undisturbed, the small steps of the ACK callback wake the requester and clear ACK |
| `Shmem.WordCopy` | lib/hpsc/shmem.c:23-51 | copying words and then bytes equals copying the first n bytes, for every length; the rest of the destination is untouched |
| `Shmem.VmemSet` | lib/hpsc/shmem.c:15-21 | sets exactly the n bytes asked for |
| `Messages.ImageAt` | lib/hpsc/shmem.c:70-81 | byte k of an image is byte k of the message, and 0 behind it |
| `Shmem.Region.Write` | lib/hpsc/shmem.c:70-81 | leaves message ++ zero padding for every size up to 64, whatever was there |
| `Shmem.Region.Read` | lib/hpsc/shmem.c:83-91 | always moves the whole region and nothing else of the buffer |
| `Shmem.Region.GetStatus` | lib/hpsc/shmem.c:93-97 | returns the status word |
| `Shmem.Region.IsNew` | lib/hpsc/shmem.c:99-103 | reports bit 0 of the status word |
| `Shmem.Region.IsAck` | lib/hpsc/shmem.c:105-109 | reports bit 1 of the status word |
| `Shmem.Region.SetNew` | lib/hpsc/shmem.c:111-118 | changes NEW to the given value and no other of the 32 bits |
| `Shmem.Region.SetAck` | lib/hpsc/shmem.c:120-127 | changes ACK to the given value and no other of the 32 bits |
| `ShmemStatus.DecodeInjective` | lib/hpsc/shmem.h:11-16 | the decoded status (NEW, ACK, other bits) loses nothing of the word |
| `ShmemStatus.StatusBits` | lib/hpsc/shmem.h:11-12 | NEW is bit 0, ACK is bit 1, the other 30 bits are neither |
| `Link.RequestCtx.Wake` | lib/hpsc/link.c:132-139 | sends the waited-for event to the requester, and to nobody if there is none; panics exactly if there is one that cannot be reached |
| `Link.RequestCtx.Ack` | lib/hpsc/link.c:127-140 | the send is marked acknowledged before the requester is woken, and stays marked if the wake-up panics |
| `Link.ShmemLink.Write` | lib/hpsc/link-shmem.c:31-37 | outgoing region holds the message's image and is announced, other status bits kept |
| `Link.ShmemLink.Read` | lib/hpsc/link-shmem.c:39-46 | buffer gets the incoming region, NEW is dropped and ACK raised, other status bits kept |
| `Link.ShmemLink.AckCallback` | lib/hpsc/link-shmem.c:23-29 | requester marked and woken, then only ACK cleared; a panic leaves ACK set |
| `Link.ShmemLink.ReceiveReply` | lib/hpsc/link.c:111-125 | the buffer gets the reply, and the event the requester is woken with finds its size already stored; panics exactly if the requester cannot be reached |
| `MboxProtocol.RunRefines` | lib/hpsc/link-mbox.c:23-46 | every disciplined run of the register-by-register protocol shows a history of the one-slot channel |
| `MboxProtocol.RequestsAreSent` | lib/hpsc/link-mbox.c:31-37 | for writes of every size up to 64, announced messages are the images of those handed to write, in order, the last word filled from behind the buffer |
| `MboxProtocol.DeliveredInOrder` | lib/drivers/hpsc-mbox.h:87-92 | with RCV cleared before ACK no message is lost, duplicated or reordered in any disciplined run |
| `MboxProtocol.CanAdvance` | lib/hpsc/link-mbox.c:23-46 | no deadlock while a write is unacknowledged |
| `MboxProtocol.ExchangeIsBounded` | lib/hpsc/link-mbox.c:23-46 | no livelock: a bound on the non-idle steps until the ACK handler has returned |
| `MboxProtocol.GoodIsDrivable` | lib/hpsc/link-mbox.c:23-46 | each event the one-slot channel allows can be brought about from every reachable state, without a timeout |
| `MboxProtocol.TracesAreSlotTraces` | lib/hpsc/link-mbox.c:23-46 | the histories are exactly those of the one-slot channel, both directions |
| `MboxProtocol.WaitEndsByAck` | lib/hpsc/link.c:23-33 | the same over a mailbox channel |
| `MboxScheduling.ScheduledIsDisciplined` | lib/hpsc/link-mbox.c:23-29 | the same for the ACK interrupt handler |
| `MboxAckFirst.SwappedOrderLosesMessage` | lib/drivers/hpsc-mbox.h:87-92 | with the two register writes of read swapped, a disciplined run that loses the second message is reachable |
| `MboxAckFirst.LostForever` | lib/hpsc/link-mbox.c:39-46 | and its sender then waits forever |
| `MboxSequential.WriteAddsUp` | lib/hpsc/link-mbox.c:31-37 | the protocol's steps of a write leave the registers the driver's write leaves, with RCV raised |
| `MboxSequential.ReadAddsUp` | lib/hpsc/link-mbox.c:39-46 | the protocol's steps of a read deliver the registers' bytes and leave the event bits the scan leaves |
| `MboxSequential.AckAddsUp` | lib/hpsc/link-mbox.c:23-29 | the protocol's steps of the ACK handler leave the event bits the scan leaves |
| `EndToEnd.SameHistories` | lib/hpsc/link.h:18-29 | the link layer sees one behaviour: any history one transport can show, the other can |
| `EndToEnd.EchoOverShmem` | rtps-r52/server.c:9-27 | any number of clients below the queue length over shared memory in smallest steps, every run: no panic, at most one command per link queued, every completed PING returns the PONG with the same 60 bytes and three zero bytes |
| `EndToEnd.EchoOverMbox` | rtps-r52/server.c:9-27 | the same over mailboxes |
| `EndToEnd.ExchangeOverShmem` | lib/hpsc/link.c:66-82 | from rest any number of messages the server answers can be exchanged over shared memory, one after the other, in its own steps: each write is acknowledged, and each request returns the reply the server computes |
| `EndToEnd.ExchangeOverMbox` | lib/hpsc/link.c:66-82 | the same over a mailbox |
| `ExchangeOver.Completes` | lib/hpsc/link.c:66-140 | one such exchange, over every transport that refines the one-slot channel and can be driven along it; the reply is acknowledged in turn and link, queue and handler are at rest again |
| `ExchangeOver.CompletesAll` | lib/hpsc/link.c:66-140 | so any number of exchanges can follow each other, with exactly their replies returned, in order |
| `ExchangeOver.CompletesOverSlots` | lib/hpsc/link.c:66-140 | the same over one-slot channels |
| `ExchangeOver.ReplyCanComeFirst` | lib/hpsc/link.c:25-28 | over every such transport one patient client's reply can be delivered while its own write is unacknowledged, so that its assertion fails |
| `EndToEnd.ReplyFirstOverShmem` | lib/hpsc/link.c:25-28 | the same over shared memory in its own steps |
| `EndToEnd.ReplyFirstOverMbox` | lib/hpsc/link.c:25-28 | the same over a mailbox |
| `RequestSystem.ServesEveryClient` | lib/hpsc/link.c:66-109 | the same for every transport that refines the one-slot channel |
| `RequestSystem.StepKeepsInv` | lib/hpsc/command.c:106-136 | every step keeps each sent request in exactly one place (channel, callback, queue, handler, or as its own reply), unaltered |
| `RequestSystem.RoomToEnqueue` | lib/hpsc/link.c:98-109 | when a command is about to be enqueued its link has none queued and the ring is neither full nor in the state the full check misses |
| `RequestSystem.RequestEnds` | lib/hpsc/link.c:20-52 | in every reachable state: a request returns its reply exactly if that has come and the channel shows its message acknowledged, fails its assertion exactly if the reply has come and it is not, and gives up only when nothing more will come |
| `RequestSystem.EndsOnce` | lib/hpsc/link.c:46-52 | a request that returns adds exactly the exchange of its own message and the buffer, one that fails or gives up adds none |
| `RequestSystem.MoveIsStep` | lib/hpsc/link.c:66-140 | a transport's small step in the composed system is a step of the one-slot system or invisible to it |
| `RequestRuns.TooManyClients` | lib/hpsc/link.c:98-109 | with as many clients as the queue has slots, each asking once and waiting, over every transport that can be driven, the next command can panic or empty the queue: the bound on the clients is exact |
| `EndToEnd.TooManyOverShmem` | lib/hpsc/link.c:98-109 | the same over shared memory |
| `EndToEnd.TooManyOverMbox` | lib/hpsc/link.c:98-109 | the same over mailboxes |
| `RequestRuns.OneImpatientClientIsEnough` | lib/hpsc/link.c:107-108 | without the rule that a client waits for its reply one client fills the queue; the next command panics or, where the check misses, empties the queue |
| `HpscMsg.MsgFill` | lib/hpsc/hpsc-msg.c:16-24 | type byte and payload set, every other byte of the buffer kept |
| `HpscMsg.FilledAt` | lib/hpsc/hpsc-msg.c:16-24 | byte by byte: the type, the payload from byte 4 on, and what the buffer held everywhere else |
| `HpscMsg.Ping` | lib/hpsc/hpsc-msg.c:51-55 | the buffer becomes a PING with the payload |
| `HpscMsg.Pong` | lib/hpsc/hpsc-msg.c:57-61 | the buffer becomes a PONG with the payload |
| `HpscMsg.ServerProcess` | rtps-r52/server.c:9-27 | result and reply buffer for NOP, PING, PONG and unknown commands |
| `HpscMsg.AnswersByType` | rtps-r52/server.c:11-26 | the result is negative if and only if the type byte is none of 0, 1 and 2, and positive, then 64, if and only if it is 1; otherwise the reply buffer is left alone |
| `HpscMsg.PingIsEchoed` | lib/hpsc/hpsc-msg.c:51-61 | for every 60-byte payload the reply to a PING is PONG, three zero bytes, the payload |
| `HpscMsg.PongIsNotAnswered` | rtps-r52/server.c:20-22 | a reply is never answered, so two servers cannot keep each other busy |
| `CommandRing.SizeIsLength` | lib/hpsc/command.c:62-66 | the computed size is the number of queued items, at most N - 1 |
| `CommandRing.PushAppends` | lib/hpsc/command.c:76-79 | below N - 1 items an enqueue appends, wherever head and tail are |
| `CommandRing.EnqueueIsFifoUnlessOverflow` | lib/hpsc/command.c:68-85 | the enqueue as written equals the intended one except in that state, where it accepts and loses everything |
| `CommandRing.GuardsDiffer` | lib/hpsc/command.c:72-75 | the full check as written differs from the intended one exactly at head = N - 1, tail = 0 |
| `CommandRing.PushCollapses` | lib/hpsc/command.c:72-79 | there one enqueue turns a full queue into an empty one |
| `CommandRing.DequeueIsFifo` | lib/hpsc/command.c:87-104 | dequeue takes the oldest item and keeps the rest in order; an empty queue is left alone |
| `CommandRing.DropAllEmpties` | lib/hpsc/command.c:197-206 | drop empties the queue and returns how many items there were |
| `CommandRing.IntendedRingIsFifo` | lib/hpsc/command.c:62-104 | with the intended check every run of every capacity answers like a FIFO of at most N - 1 items |
| `CommandRing.RingIsFifoIffNoOverflow` | lib/hpsc/command.c:68-85 | with the check as written a run answers like that FIFO if and only if it never enqueues at head = N - 1, tail = 0 |
| `CommandRing.FillFromZero` | lib/hpsc/command.c:44-46 | N enqueues in a row from the initial queue reach that state, for every N |
| `Command.CmdQueue.SizeUnsafe` | lib/hpsc/command.c:62-66 | returns the number of queued commands |
| `Command.CmdQueue.EnqueueUnsafe` | lib/hpsc/command.c:68-85 | the array and indices after an enqueue are those of the ring specification, rejection included |
| `Command.CmdQueue.DequeueUnsafe` | lib/hpsc/command.c:87-104 | likewise for a dequeue |
| `Command.CmdQueue.Dequeue` | lib/hpsc/command.c:174-182 | removes the oldest command, or reports an empty queue |
| `Command.CmdQueue.DropAll` | lib/hpsc/command.c:197-206 | empties the queue and returns the count |
| `Command.CmdQueue.constructor` | lib/hpsc/command.c:44-59 | the initial queue is empty and no global callback is registered |
| `Command.CmdQueue.RegisterGlobal` | lib/hpsc/command.c:145-149 | a global callback is registered from now on |
| `Command.CmdQueue.UnregisterGlobal` | lib/hpsc/command.c:151-155 | none is registered from now on |
| `Command.CmdQueue.Handle` | lib/hpsc/command.c:106-143 | one completion: own callback if there is one, then the global one if registered, with the one status that reports whether the server failed and, if it did not and produced a reply, whether that was sent |
| `Command.CmdQueue.Flush` | lib/hpsc/command.c:184-195 | handles what was queued, oldest first, until the queue is empty; returns the count; the calls made are exactly those owed, in order |
| `Command.CompletedOnce` | lib/hpsc/command.c:117-143 | over a flush every callback is made exactly as often as the commands owe it: with HANDLER_FAILED if and only if the server returned a negative size, REPLY_FAILED if and only if its reply could not be sent, SUCCESS if and only if there was no reply or it was sent, and never UNKNOWN |
| `Command.LastComesLast` | lib/hpsc/command.c:138-143 | over a flush the calls of a later command come later, and its own callback before the global one |
| `CommandHandler.NoLostWakeup` | lib/hpsc/command.c:157-224 | across stops and restarts: a handler blocked with nothing pending while commands are queued has an enqueuer about to wake it, at its own task id |
| `CommandHandler.BlockedExactly` | lib/hpsc/command.c:208-224 | the handler task can take a step unless there is none, it is not started, or it waits with no event pending |
| `CommandHandler.CallersNeverWait` | lib/hpsc/command.c:145-206 | a command can be enqueued, the queue dropped and the global callback changed at any time, and at most two more steps finish an enqueue |
| `CommandHandler.AllCanBeHandled` | lib/hpsc/command.c:184-224 | after any run, with starts, stops and wake-ups half done: everything queued can still be handled, in its order, with nothing dropped or lost |
| `CommandHandler.HandlerIsBounded` | lib/hpsc/command.c:184-224 | in every run the handler takes at most five steps for each enqueue and start and two for each NEW event: it never spins, and once told to exit it is soon gone |
| `CommandHandler.StopCompletes` | lib/hpsc/command.c:250-262 | after any run that leaves a handler running or a stop waiting, the stop can be made and return, with no task, no task id and nothing running |
| `CommandHandler.ControlStep` | lib/hpsc/command.c:208-262 | start and stop keep task, task id and running flag consistent at every step; while a stop waits, EXIT is pending, the task is on its way out, or it is gone and the flag cleared |
| `CommandHandler.Conservation` | lib/hpsc/command.c:157-206 | in every run accepted = completed + in hand + queued + dropped + overwritten, and handling order is acceptance order |
| `CommandHandler.OverwrittenIsLoss` | lib/hpsc/command.c:72-79 | the overwritten commands number exactly N for each enqueue in the state the check misses |
| `CommandHandler.AcceptedIsKeptPlusLoss` | lib/hpsc/command.c:68-206 | so accepted equals handled, in hand, queued and dropped exactly when there was no such enqueue |
| `CommandHandler.CallbacksFollowCompletions` | lib/hpsc/command.c:138-155 | in every run, with the global callback registered and unregistered at any time, the calls made are those of the completed commands, once each, in order, with their status |
| `CommandHandler.CompletionsReport` | lib/hpsc/command.c:117-143 | in every run each completed command carries the result of the last server callback and send before it, the status that reports those, and whether a global callback was registered by then |
| `LinkRequest.ResultsAreJustified` | lib/hpsc/link.c:13-82 | under any interleaving of callbacks, stale events and timeouts, of everything observed in order: link_request returns -1 if and only if nothing was written or the first wait timed out, -2 if and only if the second one did, and otherwise exactly the size of the last reply read in this call, 0 if none; link_request_send returns the count written if its wait took an event and else 0; any other than the failed results means that the ACK ran after the write began |
| `LinkRequest.CallEnds` | lib/hpsc/link.c:13-82 | each step of a call brings its end closer and no callback moves it away |
| `LinkRequest.CallGoesOn` | lib/hpsc/link.c:13-82 | a call can always go on, unless its assertion has failed |
| `LinkRequest.TidAfterCall` | lib/hpsc/link.c:55-82 | every return clears tid_requester except that of a request whose send failed |
| `RequestWaits.RiskStartsLoose` | lib/hpsc/link.c:13-34 | a step leads from safety to a state where an event can end the first wait without an ACK exactly if it begins a write with something stale around or reads a reply before the write is acked |
| `RequestWaits.AssertionHolds` | lib/hpsc/link.c:25-28 | in every run without such a step the assertion never fails |
| `RequestWaits.LooseStepCanHalt` | lib/hpsc/link.c:25-28 | after every such run, each such step can be followed by the assertion's failure |
| `RequestWaits.ZeroMeansEmptyReply` | lib/hpsc/link.c:37-53 | if moreover no unanswered request is acked twice, every non-negative result of link_request is the size of a reply read in this call, 0 included |
| `RequestWaits.SecondAckCanBeTaken` | lib/hpsc/link.c:127-140 | after every such run, a second ACK of an unanswered request can make it return 0 with no reply read |
| `RequestWaits.WaitEndsByEvent` | lib/hpsc/link.c:23-44 | in every such run a wait can take an event exactly if a callback sent one since the write began or the last one was taken, and can time out exactly if none did |
| `RequestWaits.MissedExactly` | lib/hpsc/link.c:43-46 | when both callbacks are done, a reply that was read is missed if and only if both events were sent before the take that ended the first wait |
| `RequestWaits.ReplyIsNoticed` | lib/hpsc/link.c:111-134 | in every run in which the reply's event does not merge with the ACK's before the first wait ends, no reply is missed |
| `RequestWaits.MergingStepCanMiss` | lib/hpsc/link.c:111-134 | after every such run, each such merging can lead to a missed reply |
| `RequestWaits.MergedReplyIsMissed` | lib/hpsc/link.c:119-134 | for instance: ACK and reply before the first wait, and the request times out with its reply in the buffer |
| `RequestWaits.AckTakenForReply` | lib/hpsc/link.c:37-53 | for instance: a leftover event makes a request return 0 with no reply read |
| `RequestWaits.ReplyBeforeAckHalts` | lib/hpsc/link.c:25-28 | for instance: a reply noticed before the ACK fails the assertion |
| `RequestOverSlot.OnlyEarlyReplies` | lib/hpsc/link.c:66-140 | over one-slot channels, with a client that stops waiting only if nothing more will come: nothing stale is around when a write begins, no request is acked twice, and the only step that can break the rules for the assertion is a reply read before the ACK |
| `RequestOverSlot.TimelyRequestsAreSound` | lib/hpsc/link.c:66-140 | without such a step the assertion never fails and every byte count returned is that of a reply read in the call |
| `RequestOverSlot.ExchangeCompletes` | lib/hpsc/link.c:66-140 | from rest a request can be acknowledged, answered and return the size of its reply, with everything at rest again |
| `RequestOverSlot.IgnoredRequestTimesOut` | lib/hpsc/link.c:47-52 | and one that the server does not answer can time out with -2 and the same end |
| `RequestOverSlot.EarlyReplyHalts` | lib/hpsc/link.c:25-28 | such a step is possible and the assertion can then fail |
| `RequestOverSlot.MergedReplyIsLost` | lib/hpsc/link.c:119-134 | the two events can still merge and the reply be missed |
| `MboxRegs.RaiseIsUnion` | lib/drivers/hpsc-mbox.c:226-231 | OR-ing words is the union of the sets of bits |
| `MboxRegs.ClearIsDifference` | lib/drivers/hpsc-mbox.c:257-258 | AND-ing with the complement is their difference |
| `MboxRegs.InterruptBits` | lib/drivers/hpsc-mbox.c:29-30 | for indices below 16 the A and B bits exist, never coincide, and are different for different indices |
| `MboxRegs.InterruptMasks` | lib/drivers/hpsc-mbox.c:29-30 | the masks of two interrupt indices, in numbers |
| `MboxRegs.ShiftIsSingleton` | lib/drivers/hpsc-mbox.c:29-30 | a shifted 1 is the singleton of its bit |
| `MboxRegs.ConfigRoundTrip` | lib/drivers/hpsc-mbox.c:113-162 | reading CONFIG back returns every (owner, src, dest) triple of bytes |
| `MboxRegs.ConfigExample` | lib/drivers/hpsc-mbox.c:18-24 | a CONFIG word in numbers, both ways |
| `MboxRegs.ConfigInjective` | lib/drivers/hpsc-mbox.c:154-155 | comparing the written and the read word is comparing their four bytes |
| `MboxDriver.WriteThenRead` | lib/drivers/hpsc-mbox.c:266-325 | write then full read returns the same 64-byte image as shared memory, for every word-multiple size |
| `MboxDriver.ReadBytesFits` | lib/drivers/hpsc-mbox.c:317-325 | a read moves the size asked for, rounded up to whole words, and at most 64 bytes |
| `MboxDriver.FailedClaimLeavesInactive` | lib/drivers/hpsc-mbox.c:173-239 | success and being active coincide; a failed claim enables nothing and leaves no callback, not even of an earlier claim |
| `MboxDriver.DestinationCheck` | lib/drivers/hpsc-mbox.c:209-224 | for every claim of a channel of another owner, with one callback or both: the check made agrees with the one meant on all register contents if and only if no destination is checked or source and destination of the request are the same |
| `MboxDriver.MatchingClaimIsRefused` | lib/drivers/hpsc-mbox.c:218-224 | every other such claim is refused where the registers hold what it asks for, and granted where they hold its source as destination |
| `MboxDriver.ReceiverIsRefused` | lib/drivers/hpsc-mbox.c:218-224 | a concrete one: a receiver for messages from 1 to 2 |
| `MboxDriver.ClientClaimsAreGranted` | lib/drivers/hpsc-mbox.c:209-225 | a client's claims pass neither check and are granted exactly on inactive channels |
| `MboxDriver.ForeignBitsUntouched` | lib/drivers/hpsc-mbox.c:226-264 | over any sequence of claims and releases other devices' enable bits never change, a release clears both own bits, and an inactive channel has no callback |
| `MboxDriver.ForeignWordUntouched` | lib/drivers/hpsc-mbox.c:226-258 | the same on the 32-bit register itself, as the driver ors bits in and masks them out: over any sequence of claims and releases no bit but the device's two changes, and both are clear after a release |
| `MboxDriver.Mbox.constructor` | lib/drivers/hpsc-mbox.c:437-463 | all channels start inactive and with their registers not located |
| `MboxDriver.Mbox.ClaimChan` | lib/drivers/hpsc-mbox.c:173-239 | channel, registers and result after a claim, on every path, other channels untouched; what CONFIG and EVENT_ENABLE hold then is stated by `LinkMbox.ConnectConfigures` and `LinkMbox.FailedConnectConfig` |
| `MboxDriver.Mbox.ReleaseChan` | lib/drivers/hpsc-mbox.c:241-264 | channel and registers after a release; refused in an interrupt, and a fault on a channel never claimed, both without effect |
| `MboxDriver.Mbox.ChanWrite` | lib/drivers/hpsc-mbox.c:266-296 | registers hold the message's words and zeros, for every size up to 64, with what lies behind the buffer where the last word is cut; nothing else changes; a fault on a channel never claimed |
| `MboxDriver.Mbox.ChanRead` | lib/drivers/hpsc-mbox.c:298-325 | buffer gets whole words up to min(size rounded up, 64), the rest of it is kept; a fault on a channel never claimed |
| `MboxDriver.Mbox.EventSet` | lib/drivers/hpsc-mbox.c:327-341 | raises that event on that channel only |
| `MboxDriver.Mbox.EventClear` | lib/drivers/hpsc-mbox.c:343-357 | clears that event on that channel only |
| `MboxDriver.Mbox.Remove` | lib/drivers/hpsc-mbox.c:517-526 | faults if and only if some channel was never claimed; the channels before the first such one are released, all of them if there is none |
| `LinkMbox.DispatchIsExact` | lib/drivers/hpsc-mbox.c:359-414 | a scan makes a call exactly if it is the handler of a channel that is active with cause and enable bits set, with that channel's message |
| `LinkMbox.DispatchIsOrdered` | lib/drivers/hpsc-mbox.c:406-414 | in index order, each channel at most once |
| `LinkMbox.NothingLeft` | lib/drivers/hpsc-mbox.c:359-394 | serving clears the event, raises ACK only for a message that a callback has read and leaves nothing for another scan; on a channel that is not active, or without the event raised or the interrupt enabled, nothing changes and nobody is called |
| `LinkMbox.Links.Scan` | lib/drivers/hpsc-mbox.c:396-435 | the loop over 32 channels makes exactly those calls and leaves exactly those registers |
| `LinkMbox.Links.IsrA` | lib/drivers/hpsc-mbox.c:420-427 | the receive interrupt scans for RCV with the A bit of the device |
| `LinkMbox.Links.IsrB` | lib/drivers/hpsc-mbox.c:428-435 | the acknowledge interrupt scans for ACK with the B bit |
| `LinkMbox.Links.ScanChan` | lib/drivers/hpsc-mbox.c:406-413 | one channel under its lock: served and called if subscribed, else untouched |
| `LinkMbox.Links.Receive` | lib/hpsc/link.c:98-125 | the receive callback takes the channel's whole message, clears RCV and raises ACK |
| `LinkMbox.Links.Write` | lib/hpsc/link-mbox.c:31-37 | message in the channel written to, RCV raised there, nothing else |
| `LinkMbox.Links.Read` | lib/hpsc/link-mbox.c:39-46 | buffer gets the message; RCV cleared and ACK raised on the channel read from |
| `LinkMbox.ConnectsIffFree` | lib/hpsc/link-mbox.c:65-118 | connect succeeds if and only if the channels differ, both are inactive and the hardware grants a server both configurations |
| `LinkMbox.ConnectConfigures` | lib/hpsc/link-mbox.c:72-118 | a successful connect enables exactly RCV on the channel read from and ACK on the one written to, gives them the receive callback (the command one if and only if there is a server) and the ACK callback, and writes CONFIG, for a server only, with owner, source and destination of each direction; data, events and other channels stay |
| `LinkMbox.ConnectedLinkIsCalled` | lib/hpsc/link-mbox.c:72-100 | from then on a scan of the A interrupt calls exactly the receive callback on the channel read from, with its message, if and only if RCV is raised there; one of the B interrupt exactly the ACK callback on the other, if and only if ACK is |
| `LinkMbox.FailedConnectConfig` | lib/hpsc/link-mbox.c:96-117 | what a failed connect leaves in CONFIG on each path: a client changes nothing; a server leaves what the device made of its request or of the reset, except that a channel named twice keeps its configuration |
| `LinkMbox.FailedConnectRollsBack` | lib/hpsc/link-mbox.c:96-117 | a failed connect leaves its channels inactive, except a second one never tried, and other channels and foreign enable bits alone |
| `LinkMbox.ConnectThenClose` | lib/hpsc/link-mbox.c:48-118 | connect and close leave both channels inactive with none of this device's bits enabled, CONFIG as it was for a client and what the device makes of 0 for a server, and all else as before |
| `LinkMbox.ConnectKeepsWired` | lib/hpsc/link-mbox.c:96-117 | callbacks of active channels always belong to open links, on their own channels |
| `LinkMbox.Links.Open` | lib/hpsc/link-mbox.c:65-118 | the method does what the connect specification says, out of memory and in an interrupt included; the lemmas on `Connect` say what that leaves on channels and registers |
| `LinkMbox.Links.Shut` | lib/hpsc/link-mbox.c:48-63 | releases both channels and frees the link; in an interrupt frees it although nothing was released |
| `MboxLifetime.NoCallbackOnFreedLink` | lib/drivers/hpsc-mbox.c:173-264 | in every interleaving of scans with connects, rollbacks and successful closes, the links of active channels, of held locks and of running callbacks are allocated |
| `MboxLifetime.NobodyBlocks` | lib/drivers/hpsc-mbox.c:173-264 | no deadlock on the channel locks: after any such run each link can be brought to its end, connecting, open or closing, and each scan too |
| `MboxLifetime.CloseInInterruptSafeIff` | lib/hpsc/link-mbox.c:48-63 | after any run, a close in an interrupt keeps that promise if and only if no active channel carries the link |
| `MboxLifetime.CloseInInterruptIsUnsafe` | lib/hpsc/link-mbox.c:53-62 | a close in an interrupt leads to a callback on a freed link |
| `MboxLifetime.FailedClaimSilencesOwner` | lib/drivers/hpsc-mbox.c:199-201 | a connect to a channel in use is refused and freed, and the open link that used the channel has lost it |
| `MboxOwnership.OpenLinkKeepsChannels` | lib/drivers/hpsc-mbox.c:173-264 | in every run in which each connect names two different channels that no live link uses, every open link holds both its channels |
| `MboxOwnership.CheckFindsFree` | lib/drivers/hpsc-mbox.c:199-202 | in those runs a claim always finds its channel inactive |
| `MboxOwnership.CloseInInterruptAlwaysUnsafe` | lib/hpsc/link-mbox.c:48-63 | and closing any open link in an interrupt breaks the promise |
| `MboxOwnership.ChannelLostExactly` | lib/drivers/hpsc-mbox.c:199-264 | in any run an open link loses a channel it holds exactly when another link's claim finds the channel active or another link releases it |
| `PollLifetime.NoUseAfterFree` | lib/hpsc/shmem-poll.c:25-107 | in every interleaving with connect, rollback and close a live poll task finds itself, its link and its region allocated, and EXIT goes to live tasks only |
| `PollLifetime.SafeIffEverySendSucceeds` | lib/hpsc/link-shmem.c:48-65 | in any run in which the link has gone, all live poll tasks find what they touch if and only if no EXIT event failed to be sent |
| `PollLifetime.StopTerminates` | lib/hpsc/shmem-poll.c:95-107 | once EXIT is pending every step of the task brings its end closer |
| `PollLifetime.CloseCompletes` | lib/hpsc/link-shmem.c:48-118 | from wherever connect and close have got, a close can come to its end |
| `PollLifetime.NothingLeaks` | lib/hpsc/link-shmem.c:48-118 | a failed connect and a close whose events are delivered leave nothing allocated: neither link nor regions nor pollers |
| `PollLifetime.FailedSendIsUnsafe` | lib/hpsc/link-shmem.c:48-65 | if the EXIT event cannot be sent, close frees the link under a running poller |
| `LinkStore.Store.NodeGet` | lib/hpsc/link-store.c:21-35 | the first link with the name, missing names included |
| `LinkStore.Store.Append` | lib/hpsc/link-store.c:37-49 | appends at the end, or changes nothing when out of memory |
| `LinkStore.Store.Contains` | lib/hpsc/link-store.c:51-58 | true if and only if some stored link has the name |
| `LinkStore.Store.IsEmpty` | lib/hpsc/link-store.c:60-67 | true if and only if nothing is stored |
| `LinkStore.Store.Get` | lib/hpsc/link-store.c:69-76 | the first match, left in place |
| `LinkStore.Store.Extract` | lib/hpsc/link-store.c:78-91 | removes the first match and nothing else |
| `LinkStore.Store.ExtractFirst` | lib/hpsc/link-store.c:93-107 | removes the oldest link |
| `LinkStore.Store.Drain` | rtps-r52/shutdown.c:81-85 | the draining loop terminates and closes each stored link once, in append order |
| `LinkStore.AppendThenFind` | lib/hpsc/link-store.c:21-49 | an appended link with a new name is found, and extracting it restores the store |
| `LinkStore.OldestWins` | lib/hpsc/link-store.c:21-35 | with duplicate names the oldest is found |
| `Shutdown.ShutdownIsSafe` | rtps-r52/shutdown.c:71-93 | after a successful stop, or with no handler running, with late callbacks: no command of a freed link is handled, the handler ends only when told to, the links are closed in store order, each once and all of them, and after the drop no queued command refers to a freed link |
| `Shutdown.DrainTerminates` | rtps-r52/shutdown.c:79-93 | each step of the shutdown brings its end closer and nobody else's step moves it away |
| `Shutdown.FailedStopIsUnsafe` | rtps-r52/shutdown.c:73-75 | with a handler running, any queue and any non-empty store: if the stop fails, a command of a freed link can be handled |
| `Shutdown.UnsafeExactly` | rtps-r52/shutdown.c:71-93 | from a given start a command of a freed link can be handled if and only if a handler is running and some link is stored |
| `Shutdown.CanAdvance` | rtps-r52/shutdown.c:71-93 | the shutdown cannot block: until it is done, some step is possible that brings its end closer |

## Left out

- Weak memory ordering, compiler reordering and caches, and alignment of buffers.
- Real-time values of ticks and timeouts: a timeout is a step that may happen whenever the event waited for is not pending, in `RequestSystem` and `RequestOverSlot` only once nothing more will come.
- The return code of `cmd_enqueue_cb` when the command is queued but its event cannot be sent (`link_recv_cmd` then panics too); `RequestSystem` is about the panic caused by a full queue.
- `RequestSystem.ServesEveryClient`: of the two waits of `link_request` it keeps that the ACK and the reply must both have come; the event bit itself is the subject of `LinkRequest`, `RequestWaits` and `RequestOverSlot`.
- `MboxDriver.Mbox.ChanWrite`: that reading behind the buffer could fault is not modelled; the bytes there are a parameter.
- `Shutdown.ShutdownIsSafe`: that closing a link waits for its running callback is taken from `MboxLifetime` and `PollLifetime`, and is a guard here.
- `LinkMbox.Links.Receive`: only the channel's side; enqueueing the command is in `RequestSystem`, waking the requester in `Link` and `LinkRequest`.
- `Command.CmdQueue.RegisterGlobal`: whether a global callback is registered, not which one.
- `Command.CmdQueue.UnregisterGlobal`: see `RegisterGlobal`.
- `Command.CmdQueue.Flush`: no command arrives while it runs; commands that do are in `CommandHandler`.
- `LinkMbox.Links.Scan`: one scan without interleaved remote steps; interleavings are in `MboxProtocol` and `MboxLifetime`.
- `MboxDriver.Mbox.ClaimChan`: `chans` and `regs` are sequences held by the device object, so aliasing of the memory-mapped registers is not captured.
- Allocation of regions, `shmem_open`, device probing, installing and removing interrupt handlers.
- The other message builders (watchdog timeout, life cycle text): they fill a buffer through `MsgFill`.
- The rest of the shutdown (watchdogs, timers, suspended tasks) and the selection of devices.
- Platform tables, start-up wiring, shell and self tests, timers, watchdogs, interrupt-controller, DMA and affinity code: thin wrappers or settled by inspection.
- Output with `printk` and `printf`.
