# The switch of an optimistic network simulator

This project models one switch of a parallel, optimistic (Time Warp) network simulator and
proves what its event handlers keep, undo and guarantee. A packet that arrives at the switch is
routed to an output port; there a meter colours it, a random-early-detection dropper may drop
it, a bounded FIFO queue of its priority stores it, a strict-priority scheduler picks the next
packet to leave, and a token bucket decides when. A port that cannot send now schedules a SEND
event for itself. Every forward handler leaves a partial snapshot and a few branch bits in its
message, and a reverse handler must restore the switch from those alone.

## How the project is laid out

- `Types`, `Tokens`, `Conversion`: records, token arithmetic over reals with an explicit 32-bit
  word, unit conversion.
- `Shaper`, `Meter`, `QueueFifo`, `Scheduler`, `Dropper`, `Statistics`: one component each: its
  behaviour on values, results about it, and the class that updates it in place (the queue is a
  doubly linked list, the statistics a growing array).
- `Port`, `Switch`: one output port and the whole switch as values, with the four handlers and
  the two dispatchers.
- `Layout`, `NetworkSwitch`: the switch in place, with its components in flat arrays, and its
  handlers as imperative methods, each proved equal to the handler on values.
- `Runs`: events in time order, for a port and for the switch, with a log per port of pending
  SEND events, admitted and departed packets, slots on the wire and sampled queue lengths.
- `PortServing`, `PortAdmission`: which packet an event will serve, which one it will admit, and what
  it does to meters and droppers, told from the state before it.
- `PortInvariants`, `PortTiming`, `UniformSize`, `PortTokens`, `PortService`, `PortDrain`,
  `PortWire`, `PortSlots`, `PortOrder`, `PortRed`: results about every run of one port.
- `PortRollback`, `PortQTimes`, `SwitchRollback`, `QTimeRollback`, `Optimistic`: undoing one event, a
  stack of events, and an arbitrary interleaving of forward and reverse handlers.
- `Lifting`, `SwitchRuns`, `SwitchBounds`, `SwitchRecords`: results about every run of the switch from
  initialisation.
- `Samples`, `SampleRuns`: a port with the default parameters, runs that show where the handlers
  fall short, and one that starts a busy period.

## What the model assumes

- Times and rates are exact reals. The number of new tokens is the floor of rate times elapsed
  time, reduced modulo 2^32 as the program's unsigned word holds it; the meter's two buckets are
  unsigned 32-bit words as well (a conversion the C standard leaves open when the floor does not
  fit is taken to wrap). Upper bounds hold with the wrap; results that need "no wrap" say so with
  `NoWrap`, `InHorizon` or `RefillFits`. Bits and bytes are otherwise unbounded integers.
- The power function of the dropper is a parameter `power`; where it matters it is only assumed
  to map a base in [0,1] and a non-negative exponent into [0,1].
- A failing assertion of a forward handler is recorded as `fault` in its outcome: tokens below 0
  after a poll or a departure, an empty packet at the head of a queue, a SEND event that finds no
  packet, and a delay that is not positive. The assertion that the departing packet has the size
  the handler looked up cannot fail (`ServedIsNext`). The assertions of the reverse handlers and
  of the queue are preconditions, met in every run.
- The engine hands out events in time order, and an event is never handled after a SEND event
  that is still pending; among events at the same time any order is possible. What arrives from
  other switches is arbitrary.
- A message field that the taken branch does not write keeps whatever it held before.

## Where the code and its comments disagree

The model follows the code; the variant `Written` is the code as it stands.

- Dropper pairs are laid out at `2 * queue` and `2 * queue + 1`, but when a queue runs empty the
  handlers address `priority` and `priority + 1` of the port (`model/network_switch.c:314`,
  `:494`, `:554`). The comment that a snapshot was taken before (`:317`, `:319`) then holds only
  for the arriving packet's own pair. The reverse SEND handler writes the one saved `q_time` to
  two droppers, and selects them by the scheduler's live last priority, which no reverse handler
  restores (`model/qos/scheduler/strict_priority.c:33-36`). So a rollback does not always restore
  the `q_time`s:
  - for one event, `ArriveUndoExact` and `SendUndoExact` give the exact condition on the state
    before it, the latter for whatever last priority is live by then;
  - for a stack of events, `RollbackExactIff` gives the exact condition on its journal and the live
    last priorities, and `RollbackRestoresQTimes` a condition event by event;
  - `UndoFailsForPriorityOne` and `SendUndoFails` name an ARRIVE and a SEND event for which it
    fails, and `StackUndoFails` two SEND events that are undone correctly one by one, but not
    together.
- The variant `Repaired` changes three things only: the emptied queue's pair is addressed at
  `2 * priority`, both of its `q_time`s are saved (for ARRIVE under one more branch bit), and the
  undo takes the priority from the snapshot. Under it, rollback and optimistic execution are
  exact up to the scheduler's last priority, which no forward handler reads before writing it.
- `model/network.h:230` calls `num_packets_sent` the packets sent from the switch; the code counts
  departures inside ARRIVE events only (`SentCountsArriveDepartures`). Conservation is therefore
  stated with the logged departures.
- A packet that leaves inside an ARRIVE event goes to the next hop of the arriving packet
  (`model/network_switch.c:301`). `StepForwards` says, from the state before the event, exactly when
  that is right; `MisforwardIsReachable` gives a run for every routing table in which it is wrong,
  and `SingleNeighbourIsExact` concludes that all packets go where they should if and only if the
  port leads to one neighbour.
- The assertion that a SEND event schedules its successor strictly later (`:527-528`) fails exactly
  when the bucket pays for the next two packets at once. With one packet size, as the workload
  generator produces (`WL_generation/generate_workloads.py:126`), it never fails; with mixed sizes
  it does after five events.
- A packet of more than 2800 bytes is accepted although the bucket can never pay for it; its port
  then schedules SEND events for ever (`DrainsIff`).

## Model

| member | source | states |
|---|---|---|
| Conversion.InjectionDelay | model/util/conversion.c:12-18 | a wire of the given bandwidth carries exactly the packet's bits in the returned time, which is positive for a non-empty packet |
| Tokens.NewTokens | model/qos/shaper.c:39-46 | the whole tokens added never exceed the tokens earned, and lack less than one unless the 32-bit word overflows |
| Shaper.RestoreUndoesUse | model/qos/shaper.c:60-68 | the two saved fields undo a poll, and a poll followed by a consume |
| Shaper.PollBounds | model/qos/shaper.c:39-52 | a poll never creates value (tokens plus the fraction being earned), even if the word wraps, and keeps 0 <= tokens <= capacity |
| Shaper.PollLeavesLessThanOne | model/qos/shaper.c:39-46 | right after a poll less than one token is pending |
| Shaper.PollLosesLessThanOne | model/qos/shaper.c:39-52 | a poll that overflows neither word nor bucket loses less than one token |
| Shaper.PollIsExact | model/qos/shaper.c:39-52 | a poll adds the whole tokens earned as far as they fit, and moves the clock if and only if a whole token was earned |
| Shaper.FrequentPollsLoseNothing | model/qos/shaper.c:42-46 | any number of polls before a whole token was earned change nothing |
| Shaper.UpdateThenConsume | model/network_switch.c:275-291 | updating the bucket and later consuming at the same instant equals a single consume |
| Shaper.ExtraPollsNeverPay | model/qos/shaper.c:39-52 | whatever polls happen before, a bucket holds at most what a single poll now would give |
| Shaper.MissingTokens | model/qos/shaper.c:71-82 | the computed time earns exactly the tokens that are missing |
| Shaper.NextAvailableTimeIsExact | model/qos/shaper.c:71-91 | an unaffordable packet is affordable after a poll at a time if and only if that time is not before the computed one |
| Shaper.WaitIsPositive | model/qos/shaper.c:71-82 | after a poll the computed time lies strictly in the future although the bucket's own clock may lag |
| Shaper.TokenBucket.constructor | model/qos/shaper.c:15-21 | the tokens are the capacity and the update time is 0 |
| Shaper.TokenBucket.ConsumeTokens | model/qos/shaper.c:30-58 | the fields after the call are those of the specified consume, with or without a packet |
| Shaper.TokenBucket.IsReady | model/qos/shaper.c:85-91 | whether the tokens pay for the packet |
| Shaper.TokenBucket.NextTime | model/qos/shaper.c:71-82 | the update time if the packet is affordable, otherwise the time by which exactly the missing tokens are earned |
| Shaper.TokenBucket.ConsumeReverse | model/qos/shaper.c:60-63 | tokens and update time become those of the snapshot, nothing else changes |
| Shaper.TokenBucket.TakeSnapshot | model/qos/shaper.c:65-68 | the snapshot holds what the reverse restores |
| Metering.UpdateKeepsSound | model/qos/meter.c:19-68 | 0 <= T_c <= CBS and 0 <= T_e <= EBS after every update, with wrapping words |
| Metering.RestoreUndoesUpdate | model/qos/meter.c:75-90 | restoring the three saved fields undoes an update |
| Metering.RefillIsRepeatedTicks | model/qos/meter.c:33-44 | the bulk refill equals the one-token rule of section 3 of RFC 2697 repeated once per new token if and only if no 32-bit word overflows |
| Metering.RefillOverflows | model/qos/meter.c:33-44 | a meter for which one new token makes the words overflow and empties the full bucket |
| Metering.EarnedTokensWrap | model/qos/meter.c:26-35 | a meter that holds 5 tokens after 2^32 + 5 were earned, where the RFC fills its bucket |
| Metering.UpdateFollowsRfc | model/qos/meter.c:19-68 | when no bucket word overflows, a whole update is one tick per new token followed by the color-blind decision of section 3 of RFC 2697; the new tokens are all whole tokens earned unless these reach 2^32 |
| Metering.RfcUpdate | model/qos/meter.c:25-59 | the reference: one increment per whole token earned and the color-blind decision of section 3 of RFC 2697 |
| Metering.UpdateIsRfc | model/qos/meter.c:19-68 | when no word overflows an update leaves the tokens and gives the color of the reference |
| Metering.MeterRunIsRfc | model/qos/meter.c:19-68 | over every run in which no word overflows, tokens, green bits and passed bits are those of the reference, so a packet is green exactly while the committed tokens pay for it |
| Metering.BurstColors | model/qos/meter.c:10-60 | in a burst at one instant that meets full buckets, a packet is green exactly while the green bits stay within CBS, and otherwise yellow exactly while the yellow bits stay within EBS |
| Metering.UpdatePays | model/qos/meter.c:25-59 | green bits are paid from the committed tokens, green and yellow bits from both buckets together |
| Metering.MeterRunPays | model/qos/meter.c:19-68 | over every run of packets at non-decreasing times, bits passed plus tokens left never exceed tokens at the start plus tokens earned |
| Metering.PolicingFromStart | model/qos/meter.c:10-68 | from initialisation green bits stay within CBS plus the earned tokens, green and yellow bits within CBS + EBS plus the earned tokens |
| Metering.PolicingInWindow | model/qos/meter.c:19-68 | over any window, whatever happened before, the same bounds hold with one more bit |
| Metering.SrTcm.constructor | model/qos/meter.c:11-17 | T_c is CBS, T_e is EBS and the update time 0 |
| Metering.SrTcm.UpdateMeter | model/qos/meter.c:19-68 | fields and color are those of the specified update |
| Metering.SrTcm.UpdateReverse | model/qos/meter.c:75-79 | the three saved fields are restored, nothing else changes |
| Metering.SrTcm.TakeSnapshot | model/qos/meter.c:86-90 | the snapshot holds what the reverse restores |
| QueueFifo.PutTakeUndo | model/qos/queue_fifo.c:134-164 | put and take are undone by their reverses; enqueue, dequeue, undo of the dequeue, undo of the enqueue is the identity even on an empty queue |
| QueueFifo.FifoQueue.constructor | model/qos/queue_fifo.c:10-17 | a well-formed empty list |
| QueueFifo.FifoQueue.AppendToTail | model/qos/queue_fifo.c:36-55 | the list stays well formed from both ends with right counters, holds the packet as its last one, and hangs a fresh node behind the old ones |
| QueueFifo.FifoQueue.ReturnFromTail | model/qos/queue_fifo.c:57-76 | removes and returns the last packet; null and no change on an empty queue |
| QueueFifo.FifoQueue.AppendToHead | model/qos/queue_fifo.c:85-102 | the list stays well formed and holds the packet as its first one, in a fresh node |
| QueueFifo.FifoQueue.ReturnFromHead | model/qos/queue_fifo.c:105-124 | removes and returns the first packet; null and no change on an empty queue |
| QueueFifo.FifoQueue.PutPacket | model/qos/queue_fifo.c:134-136 | enqueue at the tail |
| QueueFifo.FifoQueue.PutPacketReverse | model/qos/queue_fifo.c:138-143 | removes the packet enqueued last |
| QueueFifo.FifoQueue.TakePacket | model/qos/queue_fifo.c:151-155 | dequeues the oldest packet of a non-empty queue |
| QueueFifo.FifoQueue.TakePacketReverse | model/qos/queue_fifo.c:162-164 | puts a packet back in front of the oldest |
| Scheduling.FirstBusy | model/qos/scheduler/strict_priority.c:16-23 | the served priority is the first with a packet: all higher ones are empty |
| Scheduling.SpScheduler.constructor | model/qos/scheduler/strict_priority.c:8-13 | no priority was served yet |
| Scheduling.SpScheduler.UpdateScheduler | model/qos/scheduler/strict_priority.c:15-26 | takes the oldest packet of the first non-empty queue, records that priority, and leaves the other queues alone; null and -1 if all are empty |
| Scheduling.SpScheduler.UpdateReverse | model/qos/scheduler/strict_priority.c:33-36 | puts the recorded packet back at the head of its queue; the last priority is not restored |
| Scheduling.SpScheduler.HasNext | model/qos/scheduler/strict_priority.c:43-52 | the size of the packet that would be served, 0 if there is none, and whether the assertion that its size is positive holds; nothing changes |
| Scheduling.SpScheduler.Delta | model/qos/scheduler/strict_priority.c:59-62 | records last priority and packet |
| Dropping.SampledStaysBelow | model/qos/REDdropper.c:23-39 | an update keeps the average between 0 and any bound on the sampled lengths |
| Dropping.AverageMoves | model/qos/REDdropper.c:23-46 | a sample of a waiting queue shrinks the distance of the average to its length by exactly 1 - wq; of an empty queue it multiplies the average with the power of the idle slots, 150 a second, and sets the q_time; a drop is average >= threshold |
| Dropping.ConstantSamples | model/qos/REDdropper.c:32 | n samples of one length leave (1 - wq)^n of the distance to it |
| Dropping.SampleRaises | model/qos/REDdropper.c:32 | every sample of at least some length shrinks what the average may lack to it by 1 - wq |
| Dropping.EnoughSamples | model/qos/REDdropper.c:32-43 | after how many samples of at least some length above the threshold the average reaches the threshold |
| Dropping.RedDropper.constructor | model/qos/REDdropper.c:8-20 | average and q_time start at 0 |
| Dropping.RedDropper.UpdateDropper | model/qos/REDdropper.c:23-46 | by fields: the distance of the average to a waiting queue's length shrinks by 1 - wq, an empty queue lets it decay and sets the q_time, and the packet is dropped exactly when the new average is at least the threshold |
| Dropping.RedDropper.UpdateTime | model/qos/REDdropper.c:48-50 | sets the q_time only |
| Dropping.RedDropper.UpdateReverse | model/qos/REDdropper.c:53-56 | restores average and q_time |
| Dropping.RedDropper.TakeSnapshot | model/qos/REDdropper.c:58-61 | the snapshot holds what the reverse restores |
| Statistics.AppendRetract | model/util/stats.c:19-50 | retracting undoes appending, and both keep the counters equal to the numbers of dropped and delivered records |
| Statistics.SwitchStats.constructor | model/util/stats.c:7-17 | no records, all counters 0 |
| Statistics.SwitchStats.UpdateStats | model/util/stats.c:19-37 | appends one record behind the live ones, through array doubling, and counts it |
| Statistics.SwitchStats.EnsureRoom | model/util/stats.c:20-28 | doubles the array when the next record would be the last that fits, and keeps the records |
| Statistics.SwitchStats.WriteRecord | model/util/stats.c:29-31 | the record stands behind the live ones, which are unchanged |
| Statistics.SwitchStats.UpdateStatsReverse | model/util/stats.c:39-50 | removes the last live record and counts it back, by its own drop mark |
| PortRollback.PutBackUndoesDepart | model/qos/scheduler/strict_priority.c:15-36 | putting the recorded packet back restores the queues and fits their capacity |
| PortRollback.JudgeUndone | model/network_switch.c:373-384 | the meter and dropper sections of the undo restore all meters and the arriving packet's pair of droppers, and touch no other pair |
| PortRollback.SendUndone | model/network_switch.c:545-568 | the reverse SEND handler never fails an assertion and restores the port up to q_times and last priority (repaired: up to last priority) |
| PortRollback.ArriveUndone | model/network_switch.c:364-426 | the same for the reverse ARRIVE handler: dropped, enqueued, sent at once or scheduled |
| PortRollback.UndoSendAlike | model/network_switch.c:545-568 | the reverse SEND handler does not see what earlier undos left open |
| PortRollback.UndoArriveAlike | model/network_switch.c:364-426 | the reverse ARRIVE handler does not see what earlier undos left open |
| PortRollback.ArriveIgnoresPriority | model/network_switch.c:131-362 | the outcome of an ARRIVE event does not depend on the last priority |
| PortRollback.SendIgnoresPriority | model/network_switch.c:429-543 | the outcome of a SEND event does not depend on the last priority |
| PortServing.SendServesIff | model/network_switch.c:451-463 | a SEND event serves a packet if and only if one waits and the polled bucket pays for the first of the highest priority, which is the one served |
| PortServing.ArriveServesIff | model/network_switch.c:262-287 | an ARRIVE event serves a packet if and only if the arriving one is admitted and the polled bucket pays for the first of the highest priority once it is put in, which is the one served |
| PortAdmission.NewAverage | model/qos/REDdropper.c:29-38 | the average after a sample, by its distance to the length of a waiting queue or by its decay |
| PortAdmission.JudgeIff | model/network_switch.c:175-255 | a packet is dropped unless it is green or yellow, fits its queue, and leaves the average of its color's dropper below the threshold; exactly its meter's tokens and exactly that dropper change |
| PortAdmission.ColorsAreRfc | model/network_switch.c:198 | when no word overflows, the color is that of section 3 of RFC 2697 with one increment per whole token earned |
| PortAdmission.ArriveAdmitsIff | model/network_switch.c:210-267 | an ARRIVE event admits a packet if and only if, told from the state before it, color, queue and average allow it; its branch bits say which dropper was asked |
| PortAdmission.EventEffect | model/network_switch.c:175-320 | what every event does to every meter and dropper, told from the state before it, and that it changes nothing else in them |
| PortAdmission.SamplesAreLengths | model/qos/REDdropper.c:25 | the logged samples of a dropper are the lengths of its queue at the events that asked it |
| PortAdmission.LongQueueIsDropped | model/qos/REDdropper.c:32-43 | a dropper that has only seen queues of at least some length above its threshold, often enough for its weight, drops the next packet about which it is asked |
| PortQTimes.ArriveUndoExact | model/network_switch.c:312-384 | as written, undoing an ARRIVE event restores the port including q_times if and only if, told from the state before it, no queue will run empty or the droppers then touched belong to the arriving packet or already have that q_time; whatever last priority is live |
| PortQTimes.SendUndoExact | model/network_switch.c:491-557 | as written, undoing a SEND event under any live last priority restores the port including q_times if and only if, told from the state before it, no queue will run empty, or the droppers that the undo writes had the one q_time it saved and those it misses already had the event's |
| PortQTimes.SendUndoneAtOnce | model/network_switch.c:491-557 | while the last priority is still its own, the condition for a SEND event is that no queue runs empty or the two touched droppers have equal q_times |
| PortQTimes.SendUndoneDroppers | model/network_switch.c:553-557 | what each dropper holds after the undo of a SEND event under any live last priority |
| PortQTimes.JudgeUndoneDroppers | model/network_switch.c:377-384 | what each dropper holds after the undo of an ARRIVE event |
| PortQTimes.IdleArriveUndoExact | model/network_switch.c:312-384 | an admitted and affordable packet at an idle port is undone exactly for priority 0, for the others only if the q_times already agree |
| PortInvariants.InitSane | model/network_switch.c:46-123 | initialisation establishes the bounds, with nothing waiting |
| PortInvariants.InitPortFields | model/network_switch.c:62-121 | by fields: full meters at a third of the bandwidth each, a full bucket of 22400 bits at the bandwidth, thresholds of 60% and 90% of a queue of 1400-byte packets rounded down, weight 0.002, q_times, averages and times 0 |
| PortInvariants.DepartKeepsSane | model/qos/shaper.c:54-56 | serving an affordable packet keeps the tokens non-negative and every bound |
| PortInvariants.StepKeepsSane | model/network_switch.c:131-543 | every event keeps queue sizes within capacity, meter and bucket bounds, and update times not ahead of the clock |
| PortInvariants.ArriveKeepsBusy | model/network_switch.c:332-360 | an ARRIVE event keeps flag, pending SEND event and waiting packets in lock-step |
| PortInvariants.SendKeepsBusy | model/network_switch.c:451-543 | a SEND event finds the flag set and a packet waiting, and keeps the lock-step |
| PortInvariants.RunKeepsBase | model/network_switch.c:131-543 | bounds and lock-step hold in every run of a port |
| PortTiming.WakeDelaySign | model/network_switch.c:526-528 | the delay of a scheduled SEND event is positive if and only if the packet is not affordable now |
| PortTiming.NoPollFault | model/qos/scheduler/strict_priority.c:46-49 | within the bounds every run keeps, the tokens are not negative and no empty packet is at the head of a queue |
| PortTiming.ServedIsNext | model/network_switch.c:463 | the departing packet has the size that was compared with the tokens |
| PortTiming.ArriveNeverFaults | model/network_switch.c:131-362 | no assertion of the ARRIVE handler fails, whatever the packet sizes |
| PortTiming.SendFaultsIff | model/network_switch.c:451-528 | an assertion of the SEND handler fails if and only if the bucket pays for the next two packets at once |
| PortTiming.FaultIff | model/network_switch.c:278-346 | in every state, the recorded fault of an event is exactly the failure of one of the handler's assertions |
| PortTiming.WakeIsForTheNext | model/network_switch.c:340-350 | whatever the packet sizes, a scheduled SEND event comes at the instant at which the port holds exactly the tokens of its next packet, if it does not hold them already |
| PortTiming.PollsAreEvents | model/network_switch.c:274-291 | a run polls at most once per event |
| UniformSize.AdmittedKeepsTimed | model/network_switch.c:269-360 | with one packet size, an admitted packet leaves no more than one packet's tokens for the time of the pending SEND event |
| UniformSize.SendIsExact | model/network_switch.c:448-543 | with one packet size whose bits fit the 32-bit word, a SEND event serves at most one packet, fails no assertion, and schedules its successor, if packets wait, strictly later for the instant at which exactly one packet's tokens are there |
| UniformSize.StepKeepsRegular | model/network_switch.c:131-543 | with one packet size every event keeps all invariants, fails no assertion and schedules strictly in the future |
| UniformSize.RunKeepsRegular | model/network_switch.c:131-543 | the same invariants in every run |
| UniformSize.EarlyArrivalNeverSends | model/network_switch.c:278-344 | a packet that arrives strictly before the pending SEND event is never the cause of an immediate departure |
| PortTokens.BucketStep | model/network_switch.c:274-291 | the whole effect of an event on the bucket is one poll and the departed bits, or nothing |
| PortTokens.StepNeverOverspends | model/qos/shaper.c:30-58 | bits departed plus value left never exceed the value before plus the tokens earned |
| PortTokens.WindowInvariant | model/qos/shaper.c:30-58 | the bits sent since the start of a window and the value left are covered by capacity, one bit and rate |
| PortTokens.ShapedWindow | model/qos/shaper.c:30-58 | over any window at most capacity + rate * window + 1 bits leave a port, whatever the packet sizes |
| PortService.BusyPollKeepsTokens | model/qos/shaper.c:39-52 | while a SEND event is pending the bucket cannot overflow: a poll adds every new token |
| PortService.BusyStepServes | model/network_switch.c:429-543 | while a SEND event is pending an event loses less than one token |
| PortService.Service | model/network_switch.c:429-543 | between two events of a busy period with k polls at least rate * time - 8S - k bits depart |
| PortService.RatesAddUp | model/network_switch.c:79-108 | the rates of a port's meters add up to the rate of its shaper |
| PortService.UpdateUsesCredit | model/qos/meter.c:25-59 | a packet that a meter passes is paid from a credit that never exceeds CBS + EBS + 1 |
| PortService.QueuedBitsStep | model/network_switch.c:257-291 | an event adds the admitted packet's bits to the queued bits and takes the departed packet's away |
| PortService.BacklogStep | model/network_switch.c:131-543 | an event of a busy period raises queued bits plus meter credit over the bucket's value by at most one bit, and only by polling |
| PortService.BacklogBound | model/network_switch.c:79-108 | in a busy period with k polls, whatever arrives, at most 3 * (CBS + EBS + 1) + 8S + k - 1 bits are queued at the port |
| PortDrain.ExactMeansReady | model/qos/shaper.c:41-52 | when exactly one packet's tokens are there, rounding down loses nothing and the packet is affordable |
| PortDrain.NoTwoIdleSends | model/network_switch.c:456-543 | after a SEND event that served nothing, the next one serves a packet unless an ARRIVE event was admitted in between |
| PortDrain.DrainStep | model/network_switch.c:456-543 | one SEND event without arrivals loses no packet and serves one, unless it is the first |
| PortDrain.Drain | model/network_switch.c:429-543 | once arrivals stop, a port with k packets serves all k, clears its flag and has no pending SEND event after at most k + 1 SEND events |
| PortDrain.OversizedNeverServes | model/network_switch.c:526-534 | with packets larger than the bucket every SEND event schedules another one and none serves a packet |
| PortDrain.DrainsIff | model/network_switch.c:429-543 | once arrivals stop, a port with packets waiting empties if and only if its bucket can pay for a packet |
| PortWire.DepartKeepsWire | model/network_switch.c:289-326 | serving a packet moves its bits from the bucket to the wire: wire bits plus tokens stay within capacity + 1 |
| PortWire.StepKeepsWire | model/network_switch.c:293-326 | every event keeps that bound and takes the first free slot of the wire |
| PortWire.ForwardDelayBound | model/network_switch.c:293-298 | every forwarded packet arrives within (capacity + 1) / bandwidth + propagation delay |
| PortWire.RunKeepsWire | model/network_switch.c:472-506 | slots on the wire never overlap and packets reach the next hop in the order of departure |
| PortSlots.SlotLength | model/network_switch.c:293-326 | an event that, told from the state before it, serves a packet occupies the wire from its first free instant for exactly the time in which it carries that packet's bits, plus the propagation delay until arrival; any other event leaves the wire alone |
| PortSlots.RunKeepsExact | model/network_switch.c:472-506 | over every run each slot carries exactly its packet's bits, and the time in use times the bandwidth is exactly the bits that departed |
| PortSlots.SlotsInRuns | model/network_switch.c:472-506 | the same at every port, in every run from initialisation |
| PortOrder.StepKeepsOrder | model/qos/scheduler/strict_priority.c:15-26 | per priority, admitted packets are the departed ones followed by the waiting ones; a departing packet is the oldest of its priority and all higher priorities are served out |
| PortOrder.RunKeepsOrder | model/qos/queue_fifo.c:134-164 | first-in first-out per priority over every run |
| PortOrder.ForwardTarget | model/network_switch.c:300-308 | an ARRIVE event forwards to the arriving packet's next hop, a SEND event to the departing packet's own |
| PortOrder.StepForwards | model/network_switch.c:263-308 | waiting packets stay routed through the port; an ARRIVE event forwards right if and only if the route of the packet that will be served, told from the state before it, names the arriving packet's next hop; a SEND event always does |
| PortOrder.RunForwards | model/network_switch.c:464-487 | if a port leads to one neighbour, every packet of every run goes where its own routing entry points |
| PortOrder.IdleServesArrival | model/network_switch.c:278-287 | on an idle port an ARRIVE event serves the arriving packet or none |
| PortRed.StepDroppers | model/network_switch.c:228-251 | which dropper an event samples, and that it drops exactly when the new average reaches the threshold |
| PortRed.StepKeepsAverages | model/network_switch.c:228-320 | an event keeps every average between 0 and the longest queue its dropper sampled, and q_times not ahead of the clock |
| PortRed.RunKeepsAverages | model/qos/REDdropper.c:23-50 | the same in every run |
| PortRed.RedDropNeedsLongQueue | model/qos/REDdropper.c:41-45 | a drop by a dropper with a positive threshold means that it once sampled a queue of at least that length |
| SampleRuns.BusyPeriodIsReachable | model/network_switch.c:332-350 | two packets of one size at time 0 start a busy period that meets every premise of the service and backlog results |
| SampleRuns.ZeroDelayIsReachable | model/network_switch.c:515-528 | four packets of mixed sizes at time 0 lead to a SEND event that schedules its successor without delay |
| SampleRuns.UndoFailsForPriorityOne | model/network_switch.c:312-384 | with the default parameters, one packet of priority 1 at a fresh port is sent at once and not undone completely |
| SampleRuns.SendUndoFails | model/network_switch.c:491-557 | two packets of one size lead to a SEND event that is not undone completely |
| SampleRuns.StackUndoFails | model/network_switch.c:553-558 | three packets of one size lead to two SEND events that are each undone completely at once, but not as a stack, because the last priority of the second one stays |
| SampleRuns.MisforwardIsReachable | model/network_switch.c:263-308 | for any two destinations routed through one port to different neighbours, three packets lead to one that is forwarded to the neighbour of the other |
| SampleRuns.SingleNeighbourIsExact | model/network_switch.c:171-308 | every packet of every run of a port goes where its own routing entry points if and only if the table gives the port one neighbour |
| Lifting.StepOnPorts | model/network_switch.c:571-595 | an event of the switch is an event of the port it concerns, and no other port changes |
| Lifting.RunOnPort | model/network_switch.c:571-595 | a run of the switch is, at each port, a run of that port |
| Lifting.RunKeepsAllBase | model/network_switch.c:131-543 | bounds and lock-step hold at all ports in every run of the switch |
| Lifting.BusyPortDiscipline | model/network_switch.c:334-350 | in every run from initialisation a flag is set iff a packet waits at the port iff exactly one SEND event is pending for it, so a SEND event always finds a packet |
| SwitchRollback.HandleUndone | model/network_switch.c:571-621 | a forward handler changes only port and snapshot of its message, and reverse after forward restores the switch from message and bits alone, including all counters and records |
| SwitchRollback.UndoAlike | model/network_switch.c:599-621 | the reverse handlers do the same from any state that earlier undos may have left |
| SwitchRollback.HandleAlike | model/network_switch.c:571-595 | the forward handlers, as written and repaired, do and send the same from any two switches that differ in last priorities only |
| SwitchRollback.RollbackRestores | model/network_switch.c:131-568 | any run of events undone newest first restores queues, meters, shapers, flags, port times, averages, counters and records; no assertion of a reverse handler fails |
| QTimeRollback.HandleUndoneExactly | model/network_switch.c:571-621 | an event undone from any state that differs from its outcome in last priorities only: the undo is safe, and exact up to last priorities if and only if the event is covered in the switch it met |
| QTimeRollback.RollbackRestoresQTimes | model/network_switch.c:131-568 | a run whose events are all covered under the live last priorities is rolled back exactly, q_times included |
| QTimeRollback.UndoAllQTimes | model/network_switch.c:377-384 | as written, a rollback leaves in every dropper the q_time that the oldest entry writing it saved, and leaves the others alone |
| QTimeRollback.RollbackExactIff | model/network_switch.c:364-568 | as written, a stack of events is rolled back exactly, q_times included, if and only if for every dropper the oldest entry that writes it saved its q_time from before the run, or none writes it and the run left it |
| Optimistic.DoKeepsFaithful | model/network_switch.c:571-595 | handling an event, as written or repaired, keeps the switch where the sequential run of the surviving events ends |
| Optimistic.RetractFaithfulIff | model/network_switch.c:599-621 | retracting the newest event is always safe, and leads back to the run without it if and only if the retraction is covered |
| Optimistic.RepairedIsCovered | model/network_switch.c:599-621 | with the repaired bookkeeping every retraction is covered |
| Optimistic.OptimisticEqualsSequential | model/network_switch.c:131-568 | from initialisation, any interleaving of handling and retracting ends in the switch, the pending SEND events and the sent packets of a sequential run of the surviving events: repaired without condition, as written when its retractions are covered |
| SwitchRuns.StepConserves | model/network_switch.c:163-266 | every event keeps the packet balance and the agreement of counters and records |
| SwitchRuns.Conservation | model/util/stats.c:19-50 | in every run: received = dropped + departed + waiting, arrivals = received + delivered here, and the records number delivered + dropped with exactly the dropped marked |
| SwitchRuns.SentCountsArriveDepartures | model/network_switch.c:322 | in every run the sent counter is the number of departures made inside ARRIVE events |
| SwitchRuns.RegularRunNeverFaults | model/network_switch.c:131-543 | with one packet size whose bits fit the 32-bit word, no assertion of a forward handler fails in any run from initialisation and every SEND event lies strictly in the future |
| SwitchRuns.OrderInRuns | model/qos/scheduler/strict_priority.c:15-52 | first-in first-out per priority and sound RED averages at every port, in every run from initialisation |
| SwitchRuns.WireInRuns | model/network_switch.c:472-506 | slots never overlap and link arrivals keep the departure order at every port, in every run from initialisation |
| SwitchRuns.ForwardingInRuns | model/network_switch.c:171-178 | if a port leads to one neighbour, every packet it forwards in any run from initialisation goes where its own routing entry points |
| SwitchRecords.HandleArriveRecords | model/network_switch.c:152-260 | the ARRIVE handler records the delay since sending of a packet delivered here, the drop of one not admitted, and nothing for one admitted |
| SwitchRecords.RecordsInRuns | model/util/stats.c:19-50 | in every run the live records are, in event order, identifier and delay of each packet delivered here and the drop of each packet not admitted here |
| SwitchRecords.AdmissionInRuns | model/network_switch.c:168-267 | in every run each packet to be forwarded is admitted exactly when color, queue and average allow it, with exactly the changes to meters and droppers that this takes |
| SwitchRecords.LongQueueDropsInRuns | model/network_switch.c:228-259 | in every run a queue that is long enough for long enough gets RED drops |
| SwitchBounds.ShapedInRuns | model/qos/shaper.c:30-58 | over any window of any run at most capacity + rate * window + 1 bits leave a port |
| SwitchBounds.DelayInRuns | model/network_switch.c:293-298 | every packet forwarded in any run arrives within (capacity + 1) / bandwidth + propagation delay |
| SwitchBounds.ServiceInRuns | model/network_switch.c:429-543 | in any run with one packet size, while a SEND event for a port stays pending over k polls, at least rate * time - 8S - k bits depart from it |
| SwitchBounds.BacklogInRuns | model/network_switch.c:79-108 | in any run with one packet size, a busy period with k polls never has more than 3 * (CBS + EBS + 1) + 8S + k - 1 bits queued at the port |
| SwitchBounds.NoTwoIdleSendsInRuns | model/network_switch.c:456-543 | in any run with one packet size, of two SEND events of a port with no packet admitted in between the second serves a packet |
| SwitchBounds.DrainInRuns | model/network_switch.c:429-543 | in any state of any run with one packet size, once arrivals stop, a port empties within one SEND event more than it has packets if its bucket can pay for a packet, and never otherwise |
| Layout.FreshPort | model/network_switch.c:62-121 | arrays filled as the initialisation fills them make up a freshly initialised port |
| NetworkSwitching.NetworkSwitch.constructor | model/network_switch.c:46-123 | the flat arrays are connected as the handlers expect, and the switch is the initial one of the value model |
| NetworkSwitching.NetworkSwitch.MakeQueues | model/network_switch.c:88-95 | three empty queues per port with the three capacities |
| NetworkSwitching.NetworkSwitch.MakeMeters | model/network_switch.c:77-86 | three full meters per port that share its bandwidth |
| NetworkSwitching.NetworkSwitch.MakeDroppers | model/network_switch.c:97-102 | a yellow and a green dropper per queue, side by side, with 60% and 90% thresholds |
| NetworkSwitching.NetworkSwitch.MakeShapers | model/network_switch.c:104-108 | a full bucket per port at the rate of its wire |
| NetworkSwitching.NetworkSwitch.MakeSchedulers | model/network_switch.c:110-118 | each scheduler gets its own port's three queues |
| NetworkSwitching.NetworkSwitch.QueueFull | model/network_switch.c:222 | whether the packet exceeds the capacity of its queue |
| NetworkSwitching.NetworkSwitch.DecideDrop | model/network_switch.c:210-255 | drops a packet exactly when it is red, does not fit, or takes the average of its color's dropper to the threshold; dropper change, branch bits and saved dropper state as specified |
| NetworkSwitching.NetworkSwitch.JudgePacket | model/network_switch.c:175-255 | drops a packet exactly when the state before does not admit it; meter and dropper change, branch bits and saved states as specified |
| NetworkSwitching.NetworkSwitch.EnqueueAndPoll | model/network_switch.c:262-275 | the packet with its next hop is the last of its queue, the shaper is polled and its state before that is saved |
| NetworkSwitching.NetworkSwitch.TakeAndPay | model/network_switch.c:282-291 | the highest-priority packet is taken, recorded and paid for |
| NetworkSwitching.NetworkSwitch.NoteEmptied | model/network_switch.c:312-320 | the two droppers at the written index learn the time if and only if the served queue ran empty |
| NetworkSwitching.NetworkSwitch.ServePacket | model/network_switch.c:459-506 | the port after a departure, with the wire booked for exactly the time in which it carries the packet's bits, and what the reverse handlers will need |
| NetworkSwitching.NetworkSwitch.DispatchNext | model/network_switch.c:276-360 | the sending half of an ARRIVE event: send now, schedule a SEND event, or rely on the one under way |
| NetworkSwitching.NetworkSwitch.WaitForTokens | model/network_switch.c:332-360 | sets the flag and schedules a SEND event when the tokens will have come, unless one is under way |
| NetworkSwitching.NetworkSwitch.SendFromArrive | model/network_switch.c:279-326 | the departure inside an ARRIVE event, its forwarded packet and the sent counter |
| NetworkSwitching.NetworkSwitch.RouteThrough | model/network_switch.c:168-362 | an ARRIVE event for a packet to be forwarded changes its port, the message, the bits and the counters as specified |
| NetworkSwitching.NetworkSwitch.HandleArriveEvent | model/network_switch.c:131-362 | the in-place ARRIVE handler is the specified one: whole switch, message, bits, forwarded packet, scheduled event and assertion failures; it records delay or drop of exactly the packets delivered or not admitted |
| NetworkSwitching.NetworkSwitch.SendFromSend | model/network_switch.c:457-543 | the serving branch of a SEND event, with the successor it schedules or the flag it clears |
| NetworkSwitching.NetworkSwitch.SendThrough | model/network_switch.c:448-543 | a SEND event changes its port, the message and the bits as specified |
| NetworkSwitching.NetworkSwitch.HandleSendEvent | model/network_switch.c:429-543 | the in-place SEND handler is the specified one |
| NetworkSwitching.NetworkSwitch.UndoRoute | model/network_switch.c:371-424 | the undo of an ARRIVE event in the order of the code: meter, dropper, scheduler before queue |
| NetworkSwitching.NetworkSwitch.HandleArriveEventRc | model/network_switch.c:364-426 | the in-place reverse ARRIVE handler is the specified one |
| NetworkSwitching.NetworkSwitch.UndoNoteEmptied | model/network_switch.c:553-557 | the pair that the live priority selects gets the one saved q_time |
| NetworkSwitching.NetworkSwitch.UndoSendThrough | model/network_switch.c:546-564 | the undo of a SEND event at its port |
| NetworkSwitching.NetworkSwitch.HandleSendEventRc | model/network_switch.c:545-568 | the in-place reverse SEND handler is the specified one |
| NetworkSwitching.NetworkSwitch.SwitchEventHandler | model/network_switch.c:571-595 | clears the bits and behaves as the handler of the event's kind; another kind changes nothing |
| NetworkSwitching.NetworkSwitch.SwitchRcEventHandler | model/network_switch.c:599-621 | behaves as the reverse handler of the event's kind |
| NetworkSwitching.NetworkSwitch.HandleThenUndo | model/network_switch.c:571-621 | handling an event and rolling it back leaves the linked lists, arrays and records in place equal to what they were, up to q_times and last priorities |
| NetworkSwitching.NetworkSwitch.RollBack | model/network_switch.c:599-621 | a loop of reverse handlers over the events of any run, newest first, leaves the lists, arrays and records in place equal to what they were before the run up to q_times and last priorities, and the q_times too if and only if the journal saved them |

## Left out

- OptimisticEqualsSequential: for the handlers as written it asks that the retractions are covered,
  because RetractFaithfulIff shows it false of an execution with one that is not.
- RegularRunNeverFaults: assumes one packet size and times within which the earned tokens fit the
  32-bit word; SendFaultsIff covers mixed sizes.
- Service: stated for one packet size that the bucket can pay for, as is BacklogBound; with mixed
  sizes a SEND event may leave tokens for a second packet behind.
- RollBack: the in-place class models the handlers as written only; the repaired handlers exist
  on values.
- PolicingInWindow: assumes that the tokens earned since the last update fit the 32-bit word.
- The simulation engine (virtual time, event memory, anti-messages, processes): an event is a value
  that a handler returns, and an undo drops it from the journal.
- Parsing of configuration and workload files, command-line options, printing and the CSV output: the
  routing table and the port parameters are given.
- `model/network_map.c`, `model/network_terminal.c` and `model/network_main.c`: mapping, traffic
  injection and set-up would only add easy members.
- Floating-point rounding: rates, times and averages are exact reals, and the power function is
  abstract.
- The color-aware mode of the meter and a RED dropper with non-zero maxp: the program exits on both.
- Freeing of nodes and queues, and failing allocations.
- Signed overflow of packet sizes and byte counters, and the assertions that the shaper's rate and
  its missing tokens are below INT_MAX.
- The fields minth, maxp and shaper_index, which no handler reads.
