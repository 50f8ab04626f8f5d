# Verified model of the EPICS to Kafka forwarder

This project models the forwarder that takes updates of EPICS process variables, converts them to
flatbuffers and publishes them to Kafka, and proves what its concurrent parts keep. All of it is
checked by `dafny verify dfyconfig.toml` with Dafny 4.11.

Code that changes objects step by step is modelled by classes whose methods are proved against pure
functions; concurrent code is modelled by transition systems whose theorems hold for every finite run,
in any interleaving. The two meet in the pure functions.

| part | files |
|---|---|
| conversion pipeline: batches, scheduler, workers, destructors | `Batches`, `Rotation`, `ConversionHeap`, `Pipeline`, `PipelineSafety`, `PipelineCounts`, `PipelineBounds`, `PipelineTheorems`, `PipelineFlags`, `PipelineProgress`, `PipelineShutdown`, `PipelineRefinement` |
| alarm delta encoding | `AlarmStatus`, `AlarmDelta`, `AlarmTimer`, `AlarmPipeline`, `AlarmWorkers`, `AlarmTwoQueues` |
| ownership and accounting of Kafka messages | `KafkaLedger`, `KafkaCounters`, `KafkaHeap` |
| stream registry, shared converters, commands, stop flag | `StreamRegistry`, `Mappings`, `MappingPaths`, `ForwarderHeap`, `Commands`, `CommandDocuments`, `StopFlag` |
| text and arithmetic | `Uri`, `UriCharacters`, `BrokerList`, `Decimal`, `Timestamps` |

**Conversion pipeline.** `Batches` says what one call of `Stream::fillConversionQueue` takes and
queues: the longest prefix of the stream's queue that the budget can pay for, all or nothing per update,
and the product of its non-null updates with the paths, in which only the last packet of every path is
marked. `Rotation` says which streams one call of `ConversionScheduler::fill` visits. `ConversionHeap`
holds the objects with the real loops, including one turn of a worker's loop from the fill to the end of
the drain. `Pipeline` interleaves clients, any number of workers, the scheduler, the removal of streams
(in the middle of a fill, too) and the destructors of paths; a destructor's look at the counter and the
return of its memory are separate steps, and the use of a path whose memory was given back is recorded as
a fault. `PipelineSafety` has what holds in every run, with counters that wrap around at 2^32;
`PipelineCounts` has what holds as long as they have not, `PipelineBounds` the runs in which they cannot,
and `PipelineTheorems` what follows. `PipelineFlags` says when a thread has ended, and `PipelineShutdown`,
by way of `PipelineProgress`, from which states all threads still can. `PipelineRefinement` ties the
interleaved fill to the one of `Rotation`.

**Alarm delta encoding.** An update object carries a flag that the idle timer may set while the object
waits in the queue. `AlarmDelta` gives the exact condition on the sequence of alarm messages under which
no schedule loses a status, and a schedule that shows the loss whenever the condition fails, for updates
converted in order. `AlarmPipeline` puts the objects on the interleaved pipeline, and `AlarmWorkers` has
the exact conditions there: with one worker, the default, the same one; with several workers a much
stronger one, because the order in which a path emits is not kept. `AlarmTwoQueues` has the exact
condition when the idle timer and the client queue independently, and `AlarmTimer` what the timer is for:
that the latest update is written again, with its status.

**Kafka messages.** The ledger separates the library's answer, its count, and the end of the caller's
`unique_ptr`, so calls of several threads and delivery reports interleave between them; a report may
come before the call that queued its message has counted it. The ledger is one producer's: with brokers
on several hosts there is a producer for each (`src/Kafka.cpp:22-36`), and the global totals of
`KafkaOutput` are sums over them. Messages may go through `KafkaOutput` or, like a connection status,
past it.

**Registry and converters.** Streams that have left the registry stay alive while someone holds a
pointer to them; a weak pointer to a converter is expired exactly if no path of a live stream uses it.
`MappingPaths` says what paths an add command makes, with a reference that knows nothing of pointers.
`CommandDocuments` says what a command's document is read as, from the list of streams that it shows.

## Where the code and its documentation differ

- `src/URI.h:27-28` says that `HostPort` also contains a port that was set before `parse`. The code
  (`src/URI.cpp:31`) takes `HostPort` from the parsed string alone. `Uri.PresetPortIsLost` is an input,
  and `Uri.DocumentedExactly` the exact condition: the string has a port, or none was set before.
- `src/Forwarder.cpp:214` is there to turn an unusable topic into a `MappingAddException`. It catches
  `runtime_error`, but `stoi` (`src/URI.cpp:33`) throws `out_of_range` from 2147483648 on, after the host
  has been replaced; the model has this as a result of its own, `PortOutOfRange`. `Uri.LargePortFails` is
  an input, and `Uri.ParseFailsExactly` and `Mappings.UnusableTopicExactly` are the exact conditions.
- `src/KafkaW/ProducerTopic.cpp:87` reads the size of a message that a delivery report on another thread
  may have deleted; `KafkaLedger.StaleExactly` says when, and `KafkaLedger.StaleHappens` is such a run.
- A converter is looked up by its name alone, and generated names start again from `converter_0` in every
  command, so a later command's streams get the schemas of an earlier one's:
  `Commands.SecondSchemaIsIgnored` is such a pair of commands, and `Commands.PrintedPaths` says exactly
  when a stream gets the schema it asked for.
- The f142 delta encoding loses a status when a channel's alarm field disappears while an alarm is set,
  and never conveys a message that itself reads as NO_CHANGE; `AlarmDelta.LosslessExactly` and, for the
  whole pipeline, `AlarmWorkers.OneWorkerExactly` show that there are no other losses with one worker.
  `AlarmWorkers.SeveralWorkersExactly` shows what else is lost with more, and
  `AlarmTwoQueues.TwoQueuesExactly` what else is lost when the idle timer runs (see below).
- A fill holds `streams_mutex` (`src/ConversionWorker.cpp:76`) against changes of the registry, but
  `src/Streams.cpp:21-60` does not take it, so a stream can leave while a fill is under way. The
  scheduler's cursor may then be past the end, and `.at` throws: `PipelineBounds.RemovalThrows` is such a
  run, and `PipelineTheorems.TransitInCalmRuns` shows that nothing else brings it about.
- For the same reason a fill may never end: the loop stops at the position where it began
  (`src/ConversionWorker.cpp:81-95`), and if the registry has become too short for that, only a budget that
  is spent to the last packet stops it. A thread inside such a fill is never joined, whatever is stopped:
  `PipelineShutdown.FillNeverEnds` is such a run, and `PipelineShutdown.JoinsExactly` the exact condition
  for a reachable state from which all threads can still be joined.

## What is assumed

- The concurrent queues are FIFO, and `enqueue` succeeds. Every worker queue has one producer and one
  consumer, the worker itself. The queue of a stream has two producing threads once the idle timer runs,
  and the library keeps order per producing thread only: `AlarmTwoQueues` has this, while `AlarmDelta`,
  `AlarmPipeline`, `AlarmWorkers` and the order in `PipelineTheorems.InOrderWithOneWorker` are about one
  order of both, as it is without the timer.
- The size that `fillConversionQueue` reads at its start is arbitrary in `Batches`, `Pipeline` and
  `Stream.FillConversionQueue`; in `Rotation` and in one turn of a worker it is exact.
- In `Rotation`, `ConversionHeap` and `PipelineRefinement.UninterruptedFill` the registry does not change
  while a `fill` is under way. In `Pipeline` it does, in one step at a time, and clients, other workers and
  destructors also go on between the visits of one `fill`.
- A stream's paths are complete before its first entry is taken.
- No path has 2^32 marked packets at once, where a row says so. `PipelineTheorems.FitsIf` derives this from
  what a caller can see: fewer than 2^32 workers and no stream removed in the middle of a fill, or budgets
  of all workers that together stay below 2^32.
- One conversion thread for the sequence numbers of `Timestamps.Converter`: `SequenceNumber` is a plain
  static (`src/schemas/tdc_time/TdcTime.cpp:28,38`), and several threads could read the same one.
- Update objects are new ones for every event of a client, with their flag off, and only the client of a
  channel queues updates on its stream.
- The Kafka library reports exactly once on every message it has accepted. Which reports a poll serves,
  and what the library answers to an attempt, are parameters.
- The objects of `ForwarderHeap` add a mapping without interruption. In `Mappings` its parts are also
  actions of their own (`Register` and `Push`), between which the check of the streams, which takes no
  lock of the forwarder's, may remove streams; the invariant, distinct names and one converter per name
  hold in all these interleavings.
- Whether a client can be made, whether Kafka refuses a topic, and which schemas are registered are
  parameters of the mappings.
- A regular expression is matched by ordered choice, as ECMAScript has it, without limits on its work;
  `\d` and `\s` have their meaning in the C locale.

## Model

| member | source | states |
|---|---|---|
| Batches.BatchFor | src/Stream.cpp:125-145 | in the packets of one call, every path gets every update taken once and in order, and exactly one mark if and only if an update was taken |
| Batches.BatchCovered | src/Stream.cpp:141-145 | every packet of one call is at or before the marked packet for its path |
| Batches.BatchLength | src/Stream.cpp:113-140 | the number of packets is updates times paths |
| Batches.BatchAt | src/Stream.cpp:125-145 | where each packet is: update by update, for each of them path by path, and exactly those of the last update are marked |
| Batches.TakenIsLongest | src/Stream.cpp:113-123 | the entries taken are the longest affordable prefix: every taken entry could be paid for in full when it was taken, the first one left within the snapshot could not, and the total stays within the budget |
| Batches.TakeIsPrefix | src/Stream.cpp:113-123 | the loop's result is the non-null part of that prefix, and the queue is left with the rest |
| Batches.NoMarksNoPackets | src/Stream.cpp:27-36 | in a covered list, no mark for a path means no packet for it |
| ConversionHeap.Stream.AddConverter | src/Stream.cpp:80-98 | a path is appended if and only if no path of the stream has the same topic and schema, and the paths stay pairwise different |
| ConversionHeap.Stream.Collect | src/Stream.cpp:113-140 | the nested loops: the queue loses what `Take` says, the new packets are the product of the updates with the paths, still unmarked, the last fan is remembered, and the budget is never exceeded, so the subtraction from it never wraps around |
| ConversionHeap.Stream.Close | src/Stream.cpp:141-145 | the closing loop turns those packets into a batch and counts one mark on every path, or does nothing if nothing was queued |
| ConversionHeap.Stream.FillConversionQueue | src/Stream.cpp:102-147 | the whole call: entries taken, packets appended in order, result, and every path's counter |
| ConversionHeap.ConversionWorkPacket.Destroy | src/ConversionWorker.cpp:18-22 | a marked packet takes one off its path's counter, an unmarked one nothing |
| Rotation.FillBudget | src/ConversionWorker.cpp:78-95 | one fill never queues more than its budget |
| Rotation.FillIsWorkConserving | src/ConversionWorker.cpp:69-97 | one fill begins where the cursor is, or at 0 if there is no stream there any more, and visits no stream twice and in cyclic order; a visited stream ends up empty or has more paths than the budget left; unvisited streams are unchanged; if budget is left, every stream was visited |
| Rotation.FillConserves | src/ConversionWorker.cpp:82-95 | for every path, what its stream's queue held is what the fill's packets carry to the path followed by what the queue still holds |
| Rotation.RotationIsFair | src/ConversionWorker.cpp:78-95 | over any run of fills with a fixed number of streams and any queues and budgets, visits are in strict cyclic order and no stream gets more than one visit more than another |
| ConversionHeap.ConversionScheduler.FillOne | src/ConversionWorker.cpp:83-92 | one visit: the stream under the cursor, its packets, its paths' counters and the cursor change as specified, all other streams stay as they are |
| ConversionHeap.ConversionScheduler.Fill | src/ConversionWorker.cpp:69-97 | the loop with its cursor reaches exactly the state of the specified fill: queues, cursor, packets, and every counter is its old value plus its marks |
| ConversionHeap.ConversionWorker.Drain | src/ConversionWorker.cpp:48-54 | the drain loop empties the queue; every path has emitted its packets' updates in order and lost one count per mark |
| ConversionHeap.ConversionWorker.Pass | src/ConversionWorker.cpp:42-54 | one turn of the worker's loop from an empty queue leaves every counter as it was, and moves updates from the streams' queues to the paths' emissions in order, losing and doubling none |
| PipelineTheorems.TransitIsExact | src/Stream.cpp:27-36 | in every reachable state, whenever streams were removed, a path's counter is the number of marked packets for it modulo 2^32, and there are none exactly if no worker holds a packet for it; while no path has 2^32 marks, the counter is that number, and zero exactly then |
| PipelineTheorems.TransitInCalmRuns | src/Stream.cpp:27-36 | if no stream is removed in the middle of a fill and there are fewer than 2^32 workers, a counter is at most the number of workers, and the scheduler never looks past the end of the registry |
| PipelineTheorems.FitsIf | src/ConversionWorker.cpp:78-95 | no path has 2^32 marks at once if no stream is removed in the middle of a fill and there are fewer than 2^32 workers, or if the budgets of all workers together are below 2^32, whatever is removed |
| PipelineBounds.RemovalThrows | src/Streams.cpp:21-29 | a run in which a stream leaves in the middle of a fill and the scheduler's `.at` throws |
| PipelineCounts.RunSound | src/Stream.cpp:27-36 | over every run in which no path has 2^32 marks at once, with removals at any time, no path that is past its wait has a packet anywhere, and none was used after its memory was given back |
| PipelineTheorems.EveryPacketIsCovered | src/Stream.cpp:141-145 | in every reachable state every packet is at or before a marked packet for its path in its worker's order |
| PipelineTheorems.NoFault | src/ConversionWorker.cpp:42-54 | no path is used after its memory was given back in any run in which no path has 2^32 marks at once (see FitsIf), with streams removed at any time |
| PipelineTheorems.NoDanglingPath | src/Stream.cpp:27-36 | in the same runs, once a destructor has read zero, no packet points at its path, then or later |
| PipelineTheorems.ExactlyOnce | src/ConversionWorker.cpp:42-54 | for every path, each accepted update is as often in the stream's queue, unsent packets and emissions together as it was accepted |
| PipelineTheorems.InOrderWithOneWorker | src/Stream.cpp:113-139 | with one worker the emissions of every path are at all times a prefix of what its stream accepted |
| PipelineTheorems.EmptyAtTheTest | src/ConversionWorker.cpp:42-55 | a worker that is about to test its run flag, or has been joined, holds no packet |
| PipelineTheorems.ShutdownNeverWaits | src/Forwarder.cpp:112-123 | once all workers have joined, every counter is zero for the rest of the run and a destructor goes on at its first look |
| PipelineTheorems.CleanShutdown | src/Forwarder.cpp:183-184 | clearing the streams after the join empties the registry, and then every path can be destroyed without waiting, up to its memory being given back |
| PipelineFlags.JoinedExactly | src/ConversionWorker.cpp:30-42 | over every run, a worker is joined exactly if it tested its run flag after it was stopped |
| PipelineShutdown.WorksOn | src/ConversionWorker.cpp:42-55 | a worker that was never stopped, in a program that goes on, comes to the test of its flag again and from there into the next fill |
| PipelineShutdown.JoinsExactly | src/Forwarder.cpp:112-123 | from a reachable state all threads can still be joined if and only if the program has not ended, no worker is about to use freed memory, and a fill under way can end: the position where it began is still there, or its budget can be spent to the last packet on the streams that are |
| PipelineShutdown.EveryThreadJoins | src/ConversionWorker.cpp:42-63 | if no stream is removed in the middle of a fill and there are fewer than 2^32 workers, from every reachable state all threads can be joined by stopping them and letting them run, without any client |
| PipelineShutdown.FillNeverEnds | src/ConversionWorker.cpp:81-95 | a run without a fault in which a stream is removed in the middle of a fill, and the filling thread can never be joined |
| PipelineShutdown.JoinsWhileMarksFit | src/ConversionWorker.cpp:69-97 | as long as no path has 2^32 marks at once, with removals at any time, all threads can still be joined if and only if the program has not ended and a fill under way can end |
| PipelineRefinement.UninterruptedFill | src/ConversionWorker.cpp:69-97 | in the interleaved pipeline, a fill that nobody interrupts, in a program that has not ended, is a run that does to queues, cursor and packets exactly what the specification of one fill says |
| PipelineSafety.RunKeeps | src/ConversionWorker.cpp:37-63 | the invariant behind these theorems holds after every run, with any number of workers and removals at any time |
| AlarmStatus.GetAlarmStatus | src/schemas/f142/DataFromPVStruct.cpp:15-43 | the search finds the position of the message's stem among the names, or UDF if it is not there; no alarm field means NO_ALARM |
| AlarmStatus.StatusRoundTrip | src/schemas/f142/DataFromPVStruct.cpp:26-41 | every status name followed by _ALARM gives that status, and NO_ALARM gives NO_ALARM |
| AlarmStatus.StatusNumbers | system-tests/helpers/f142_logdata/AlarmStatus.py:6-29 | the number of every EPICS alarm message, 17 for any other message, and 0 without an alarm field |
| AlarmStatus.NoChangeMessages | src/schemas/f142/DataFromPVStruct.cpp:26-41 | exactly the messages made of NO_CHANGE and six more characters read as NO_CHANGE |
| AlarmDelta.DeltaIsExact | src/schemas/f142/f142.cpp:365-374 | in every interleaving of events, idle timer and conversion in which the monitor has not followed a null pointer, if the alarm field only goes away after NO_ALARM, the reader holds the exact status after a message if and only if that status is not NO_CHANGE |
| AlarmDelta.LosslessExactly | src/EpicsClient/EpicsClientMonitor.cpp:71-105 | for every sequence of alarm messages in which no alarm field comes after an update without one (`Sound`; on the others the monitor follows a null pointer, see FaultExactly), no schedule loses a status if and only if no message means NO_CHANGE and the alarm field goes away only after NO_ALARM |
| AlarmDelta.LosslessIfUniform | src/EpicsClient/EpicsClientMonitor.cpp:71-88 | nothing is lost if all or none of a channel's updates have an alarm field and no message means NO_CHANGE |
| AlarmDelta.AlarmFieldGoesAway | src/EpicsClient/EpicsClientMonitor.cpp:73-75 | a concrete loss: HIHI_ALARM followed by an update without an alarm field |
| AlarmDelta.FaultExactly | src/EpicsClient/EpicsClientMonitor.cpp:71-79 | the monitor follows a null pointer exactly if an update with an alarm field comes after one without |
| AlarmDelta.EpicsClientMonitor.AlarmMessageChanged | src/EpicsClient/EpicsClientMonitor.cpp:71-79 | changed if and only if the update has an alarm field and its message differs from the cached one |
| AlarmDelta.EpicsClientMonitor.Emit | src/EpicsClient/EpicsClientMonitor.cpp:81-88 | flag, cache and queue, objects included, move as the transition system says |
| AlarmDelta.EpicsClientMonitor.EmitCachedValue | src/EpicsClient/EpicsClientMonitor.cpp:92-100 | the cached object, even if it is queued already, gets its flag set and is queued again; TimerIsWritten says what that is for |
| AlarmTimer.TimerIsWritten | src/EpicsClient/EpicsClientMonitor.cpp:92-100 | after any run without a fault the idle timer queues the latest update behind what waits; the message that this becomes, and every other one written for it from then on, has the status of the latest alarm message, whatever else happens; before the first update the timer does nothing |
| AlarmTimer.TimerIsWrittenByPath | src/EpicsClient/EpicsClientMonitor.cpp:92-100 | the same for a path of the interleaved pipeline with one worker |
| AlarmDelta.CreateStatus | src/schemas/f142/f142.cpp:365-374 | the message carries the update's status if its flag is set at that moment, and NO_CHANGE otherwise |
| AlarmDelta.ConvertNext | src/schemas/f142/f142.cpp:351-374 | converting the head of the queue is the transition system's step, with the status it writes |
| AlarmPipeline.RunSimulates | src/ConversionWorker.cpp:37-63 | with one worker, every run of the pipeline together with a channel's objects is for each path a run of the encoding, whose queue holds what the stream accepted and the path has not emitted |
| AlarmPipeline.ExactWithOneWorker | src/schemas/f142/f142.cpp:365-374 | in every such run on a `Sound` sequence in which the alarm field only goes away after NO_ALARM, the reader holds the exact status after a message if and only if that status is not NO_CHANGE, whatever is flagged while updates wait |
| AlarmWorkers.OneWorkerExactly | src/ConfigParser.h:42 | with one conversion thread, the default, no run of the pipeline loses a status on any path if and only if no message means NO_CHANGE and the alarm field goes away only after NO_ALARM, for every `Sound` sequence |
| AlarmWorkers.SeveralWorkersExactly | src/Forwarder.cpp:57-60 | with two or more conversion threads, no run loses a status if and only if no message means NO_CHANGE and every message differs from the one before it, for every `Sound` sequence |
| AlarmTwoQueues.TwoQueuesExactly | src/EpicsClient/EpicsClientMonitor.cpp:81-100 | when client and timer queue independently and the worker takes from either, no run loses a status if and only if no message means NO_CHANGE and either every message differs from the one before it or all mean the same, for every `Sound` sequence |
| AlarmTwoQueues.AlarmSetsIn | src/EpicsClient/EpicsClientMonitor.cpp:92-100 | an alarm that sets in and stays is lost in some such run |
| KafkaLedger.FreedExactlyOnce | src/KafkaW/ProducerTopic.cpp:66-111 | over every run, with delivery reports at any time, no message is deleted twice or while the library has it, and one is deleted exactly if its call returned with an error or its delivery report came; with a caller's pointer still on it only if that report came before the count |
| KafkaLedger.StaleExactly | src/KafkaW/ProducerTopic.cpp:85-91 | a call reads the size of a deleted message exactly if, in the run, its delivery report came after the library took it and before the call counted the answer |
| KafkaLedger.StaleHappens | src/KafkaW/ProducerTopic.cpp:85-91 | a run in which that happens |
| KafkaLedger.Conservation | src/KafkaW/ProducerDeliveryCb.h:25-38 | over every run the attempts are produced, queue-full, too-large, failed and open calls modulo 2^32, and plainly if and only if none of these counters has wrapped around; produced and what is ahead of its count is delivered, undelivered and in flight modulo 2^64, and plainly if and only if both sides wrapped around equally often; `TotalMessagesProduced` is `produced` |
| KafkaLedger.OutputTotals | src/KafkaOutput.cpp:22-37 | over every run, the global message count and the accepted messages outside of it (connection status, or a call that has not returned) are `produced` modulo 2^64, and equal to it exactly if what is outside is a multiple of 2^64, so if nothing is outside; the global byte count and the bytes outside are `produced_bytes` and what the 32-bit size cuts off modulo 2^64, and `produced_bytes` alone exactly if what is cut off is a multiple of 2^64; nothing is cut off exactly if no message that went through is too large |
| KafkaCounters.CountersOfRun | src/KafkaW/ProducerTopic.cpp:85-110 | over every run, each counter is the number of answers, reports or output messages of its own kind that the run shows, or the sum of their sizes, up to the width of the counter |
| KafkaHeap.Producer.DeliveryCallback | src/KafkaW/ProducerDeliveryCb.h:25-38 | one report counts on the right counter and deletes the message once |
| KafkaHeap.Producer.LibraryPoll | src/KafkaW/Producer.cpp:81 | a poll of the library makes exactly the reports for its events, in order, and takes those messages off its queue |
| KafkaHeap.Producer.Poll | src/KafkaW/Producer.cpp:64-68 | the same, and the number of events and the queue length go into the statistics |
| KafkaHeap.Producer.Destroy | src/KafkaW/Producer.cpp:18-35 | at most 80 polls, none after the queue is empty, so a queue of up to 80 messages is empty afterwards if every poll serves one, and a longer one has 80 fewer; of the messages whose calls have returned exactly those still queued are never deleted |
| KafkaHeap.PollsEmpty | src/KafkaW/Producer.cpp:18-35 | the polls empty the queue if each serves a message and there are at least as many polls as messages |
| KafkaHeap.ProducerTopic.Count | src/KafkaW/ProducerTopic.cpp:81-110 | every answer goes to its own counter, and 0 is returned exactly for success |
| KafkaHeap.ProducerTopic.Produce | src/KafkaW/ProducerTopic.cpp:66-111 | polls first, then offers and counts; the caller's pointer is empty exactly if the library has the message |
| KafkaHeap.ProducerTopic.ProduceData | src/KafkaW/ProducerTopic.cpp:48-64 | the copying overloads run the whole life of a message of their own, up to its deletion or hand-over |
| KafkaHeap.KafkaOutput.Emit | src/KafkaOutput.cpp:22-37 | an empty buffer gives -1024 and changes nothing; otherwise produce, global totals on success only, and deletion of what the library did not take |
| StreamRegistry.RemoveRefines | src/Streams.cpp:21-60 | removing channels from the vector removes their keys from the ordered map; the others keep order and stream |
| StreamRegistry.AddRefines | src/Streams.cpp:75-78 | appending a stream under a new channel puts it at the end of the ordered map |
| StreamRegistry.LookupAgrees | src/Streams.cpp:85-97 | the first match in the vector is the map's entry |
| StreamRegistry.Streams.GetStreamByChannelName | src/Streams.cpp:85-97 | the search loop finds that entry, or nothing if the channel is not there |
| StreamRegistry.Streams.EraseIf | src/Streams.cpp:23-28 | the erase loop keeps exactly the other entries in order and hands back the removed ones |
| StreamRegistry.Streams.StopChannel | src/Streams.cpp:21-29 | the stream of this channel and no other leaves the vector |
| StreamRegistry.Streams.ClearStreams | src/Streams.cpp:31-43 | all streams leave the vector |
| StreamRegistry.Streams.CheckStreamStatus | src/Streams.cpp:45-60 | exactly the streams in error leave the vector |
| StreamRegistry.Streams.Back | src/Streams.cpp:80-83 | the map's last key and the stream it maps to, if there is one |
| Mappings.RegistryRefinesMap | src/Forwarder.cpp:269-329 | after any run, every operation does to the registry what it does to the ordered map |
| Mappings.NamesDistinct | src/Forwarder.cpp:313-319 | channel names in the registry are pairwise distinct after any run |
| Mappings.OneLivePerName | src/Forwarder.cpp:234-256 | in every reachable state at most one live converter instance was made under a name, and the weak map points at it, across expiry, re-creation, rejected duplicates, and streams that leave in the middle of a mapping |
| Mappings.SameNameSameConverter | src/Forwarder.cpp:234-256 | all paths of live streams that asked for the same name share one converter and its schema |
| Mappings.SchemaAsAsked | src/Forwarder.cpp:237-244 | a new path has the schema asked for if and only if its name does not belong to a live converter of another schema |
| Mappings.UnusableTopicExactly | src/Forwarder.cpp:212-219 | a topic that cannot be parsed makes a MappingAddException exactly if it cannot be cut into well-formed parts, and an out_of_range exactly if it can be cut so that its port is 2^31 or more |
| Mappings.PushFailsExactly | src/Forwarder.cpp:223-267 | a converter is not pushed exactly if its schema is unknown, else its topic cannot be parsed, else Kafka refuses the topic; no path is made then, and before the last of these nothing at all |
| Mappings.AddFailsExactly | src/Forwarder.cpp:311-323 | a mapping fails before its stream is made exactly if its channel is registered, or else its client cannot be made, and then changes nothing; after that a first topic that cannot be parsed on its own, or is refused, makes it fail before any converter is pushed |
| Mappings.AddIsRun | src/Forwarder.cpp:269-308 | a mapping that nothing interrupts is the run of its parts: registering the stream, then one push per converter up to the first failure |
| MappingPaths.AddAllPaths | src/CommandHandler.cpp:33-40 | a successful add command, with any converters and schemas in its mappings, leaves old streams alone, registers the new ones in order, and gives each exactly the paths of the reference: by converter, its topic, its name, and the schema of the live converter of that name or else the one asked for, minus duplicates |
| MappingPaths.LivePathSettles | src/Forwarder.cpp:236-240 | a path of a live stream settles the schema of every later path with its name |
| Mappings.AddExtends | src/Forwarder.cpp:269-308 | a mapping leaves all other streams alone; its stream is registered at the end, even if the mapping fails later, unless the channel existed or its client could not be made |
| Mappings.AddAllStops | src/CommandHandler.cpp:33-40 | an add command tries its mappings up to the first failure and none after it |
| Mappings.AddAllRegisters | src/CommandHandler.cpp:33-40 | the channels it registers, in order, whether or not a mapping fails |
| Mappings.AddAllSucceeds | src/CommandHandler.cpp:33-40 | it succeeds as a whole if and only if its channels are distinct and new, their clients can be made and all their converters are good |
| Mappings.AddThenStop | src/CommandHandler.cpp:33-46 | a successful add command followed by a stop for each of its channels restores the registry |
| Mappings.AddEachRegisters | src/Forwarder.cpp:67-73 | the mappings at the start of the program register exactly the channels that can be reached, whatever fails before or after them |
| ForwarderHeap.Forwarder.GetConverter | src/Forwarder.cpp:233-260 | the three branches of the look-up: reuse, re-create after expiry, create |
| ForwarderHeap.Forwarder.AddConverter | src/Stream.cpp:80-98 | the duplicate search appends the path or answers 1 |
| ForwarderHeap.Forwarder.CreateTopicURI | src/Forwarder.cpp:198-221 | the broker's host and port, overridden by what the topic says; no host exactly if the topic cannot be cut into well-formed parts, port out of range exactly if it can be cut so that the port is 2^31 or more |
| ForwarderHeap.Forwarder.PushConverterToStream | src/Forwarder.cpp:223-267 | schema check, topic, converter and path in this order, with the failure of each |
| ForwarderHeap.Forwarder.AddStream | src/Forwarder.cpp:311-329 | rejects a registered channel, otherwise registers a new stream without paths |
| ForwarderHeap.Forwarder.AddMapping | src/Forwarder.cpp:269-308 | the whole mapping, with what is left behind at each failure |
| ForwarderHeap.Forwarder.AddMappings | src/CommandHandler.cpp:37-39 | the loop of an add command, which a failure ends |
| ForwarderHeap.Forwarder.AddConfigured | src/Forwarder.cpp:67-73 | the loop at the start of the program, which skips a failure |
| Commands.RejectedExactly | src/ConfigParser.cpp:40-68 | an add command is rejected before anything is added if and only if one of its entries has no channel, or a converter without schema or topic |
| Commands.CommandExactly | src/ConfigParser.cpp:133-146 | which command a document is, by the text of its "cmd" |
| Commands.ObjectOrArray | src/ConfigParser.cpp:52-61 | a converter object and an array of that one converter read the same |
| Commands.ConfigParser.ExtractConverterSettings | src/ConfigParser.cpp:107-131 | schema and topic are required; a generated name uses up one number of the 32-bit counter |
| Commands.ConfigParser.ExtractMappingInfo | src/ConfigParser.cpp:80-105 | the channel is required; an unknown protocol reads as pva |
| Commands.ConfigParser.ExtractStreamInfo | src/ConfigParser.cpp:40-68 | the loops over streams and converters read the whole document or fail |
| CommandDocuments.ReadBack | src/ConfigParser.cpp:40-131 | every document that shows a list of streams, with any converters, alone or in arrays, named or not, and whatever else is in it, reads as that list in order: channels, schemas, topics and names as given, protocol pva unless it is ca, and the converters without a name numbered one after the other over all streams |
| Commands.CommandRoundTrip | system-tests/helpers/forwarderconfig.py:22-51 | a printed add command reads back as its channels in order, with its protocol, schema and topic |
| CommandDocuments.PrintedShows | system-tests/helpers/forwarderconfig.py:22-51 | the printed add command says "add" and shows its channels, each with its protocol "pva" or "ca" and one converter without a name |
| Commands.NamesDistinctExactly | src/ConfigParser.cpp:123-128 | the generated names are pairwise distinct if and only if there are at most 2^32 |
| Commands.PrintedTopic | system-tests/helpers/forwarderconfig.py:22-28 | whatever the URI held before, the printed topic is parsed back to localhost:9092, port 9092 and its leading topic characters if nothing but space comes after them (an empty one leaves the old topic), and otherwise not at all |
| Commands.PrintedCommands | system-tests/helpers/forwarderconfig.py:43-64 | on any reachable registry, for any schema and topic, a printed add command succeeds if and only if its channels are distinct, new and reachable and, if there are any, the schema is known and the topic is one and not refused; then the printed stop commands undo it |
| Commands.PrintedPaths | src/ConfigParser.cpp:123-128 | every stream of a successful printed add command is registered in order and has one path, with the topic and a generated name, and the schema asked for if and only if no live converter of another schema has that name |
| Commands.SchemasAreReused | src/Forwarder.cpp:236-240 | of two printed add commands the second one's streams get the schemas of the first one's, position by position, whatever the second one asks for |
| Commands.SecondSchemaIsIgnored | src/Forwarder.cpp:236-240 | on a new forwarder, "a" with f142 and then "b" with TdcTime, both schemas known and the topic good: both commands succeed, and "b" has f142 |
| Commands.RemoveConfiguration | system-tests/helpers/forwarderconfig.py:53-64 | one stop command for each channel, in order, that reads back as that |
| Commands.ConfigCallback.HandleCommand | src/CommandHandler.cpp:33-66 | by the text of "cmd": add does what its settings say, or nothing if they are malformed; stop_channel removes the channel it names; stop_all empties the registry and leaves paths and flag alone; exit leaves streams alone and sets the flag to its old value with what others raised and STOP; any other text, or none, changes nothing |
| StopFlag.FlagIsWhatWasRaised | src/Forwarder.cpp:334-343 | in every interleaving of loads and exchanges, with failures for no reason, the flag is the OR of what completed calls raised |
| StopFlag.NoBitIsLost | src/Forwarder.cpp:334-343 | no bit is ever cleared and RUN is never entered again |
| StopFlag.FewFailures | src/Forwarder.cpp:334-343 | a call fails for a reason at most twice, however many calls there are |
| StopFlag.BitsSeenExactly | src/Forwarder.cpp:334-343 | a load sees a bit of any mask exactly if a call that raised such a bit has completed |
| StopFlag.MainLoopEndsExactly | src/Forwarder.cpp:173-181 | the main loop ends exactly if a call that raises STOP or STOP_DUE_TO_SIGNAL has completed, and a signal is reported exactly if one that raises STOP_DUE_TO_SIGNAL has |
| StopFlag.AtomicFlag.Raise | src/Forwarder.cpp:334-343 | the retry loop adds its bits to the old ones and those raised meanwhile, with at most two real failures |
| Uri.MatchExactly | src/URI.cpp:24-27 | the match with its backtracking succeeds exactly on the strings that can be cut into well-formed parts, and gives such parts |
| Uri.ParseFailsExactly | src/URI.cpp:24-35 | whatever the object held: no host exactly if the string cannot be cut into well-formed parts, port out of range exactly if it can be cut so that the port is 2^31 or more, and nothing else fails |
| Uri.DocumentedExactly | src/URI.h:27-28 | after a parse, HostPort has the port in it, or there is no port, if and only if the string has a port or none was set before |
| Uri.PresetPortIsLost | src/URI.h:27-28 | a preset port 9092 and "//h/t" give HostPort "h" and port 9092 |
| Uri.LargePortFails | src/URI.cpp:31-33 | "//h:2147483648/t" replaces the host and leaves port and topic |
| Uri.PortIsUint32 | src/URI.cpp:32-34 | a port stays within 32 bits |
| Uri.URI.Parse | src/URI.cpp:19-38 | the object after a parse: missing ports and topics leave the old ones, no host leaves everything, too large a port leaves all but the host |
| UriCharacters.TopicCharacters | src/URI.cpp:24-25 | a topic of letters, digits, dot, underscore and hyphen is parsed back, with any space behind it; with any other character in it there is no host |
| UriCharacters.HostCharacters | src/URI.cpp:24-25 | every host of characters other than / ? # and colon is parsed back, behind space and // or any scheme |
| UriCharacters.SchemeCharacters | src/URI.cpp:24-25 | a scheme is one or more characters other than / ? # and colon; otherwise there is no host |
| UriCharacters.PortCharacters | src/URI.cpp:24-25 | what stands between colon and slash is a port if it is one or more of the ten digits; otherwise there is no host |
| UriCharacters.SpaceCharacters | src/URI.cpp:24-25 | exactly the six space characters may stand before the slashes |
| UriCharacters.NoMarks | src/URI.cpp:24-25 | a question mark or a hash mark anywhere in the string, and there is no host |
| Uri.WrittenRoundTrip | src/URI.cpp:19-38 | any host with optional port, topic and end, behind space and any prefix, is parsed back; without a prefix if and only if the host does not start with space or is one character long, and otherwise the host is wrong |
| Uri.PrefixedRoundTrip | src/URI.h:39 | with // or any scheme in front, every printed host, port and topic, empty or not, is parsed back |
| Uri.BareRoundTrip | src/URI.h:39 | without a prefix every printed URI, its topic empty or not, is parsed back if and only if its host does not start with space or is one character long |
| Uri.BrokersRoundTrip | src/ConfigParser.cpp:70-78 | a list of brokers with commas between them is read back as that list: each with or without space, prefix, port, slash and topic, and with any empty fields between them; only a host that starts with space needs a prefix, as BareRoundTrip says, and ports are below 2^31 |
| Uri.BrokerSettings.SetBrokers | src/ConfigParser.cpp:70-78 | one URI per non-empty field, up to the first that cannot be parsed |
| BrokerList.Split | src/ConfigParser.cpp:18-35 | the search loop gives the fields between the commas, without the empty ones |
| BrokerList.FieldsOfJoin | src/ConfigParser.cpp:18-35 | the fields of strings joined with commas are those strings |
| BrokerList.JoinOfFields | src/ConfigParser.cpp:18-35 | joining the fields of any string gives the string back, and no field has a comma |
| BrokerList.SplitOfJoin | src/ConfigParser.cpp:18-35 | splitting joined non-empty comma-free strings gives them back |
| BrokerList.SplitKeeps | src/ConfigParser.cpp:18-35 | exactly the non-empty fields are given |
| Timestamps.SplitStamp | src/EpicsClient/EpicsClientRandom.cpp:56-70 | the casts lose nothing: seconds and nanoseconds below 10^9 that make up the 64-bit count |
| Timestamps.SplitThenRecombine | src/schemas/f142/f142.cpp:380-392 | recombining the split of any 64-bit count gives it back |
| Timestamps.RecombineThenSplit | src/schemas/f142/f142.cpp:380-392 | the other way round exactly the normalized stamps that fit 64 bits survive |
| Timestamps.CalcTimestamps | src/schemas/tdc_time/TdcTime.cpp:46-60 | half as many timestamps as elements, each the first number of its pair times 10^9 and the second, modulo 2^64, or an error for an odd number |
| Timestamps.PairsCollide | src/schemas/tdc_time/TdcTime.cpp:57 | two pairs of int32 give the same timestamp only if they are the same number of nanoseconds, without overflow on the way |
| Timestamps.PairsInOrder | src/schemas/tdc_time/TdcTime.cpp:57 | between pairs with seconds from 0 and nanoseconds below 10^9 the timestamps are injective and in strict lexicographic order |
| Timestamps.InOrderExactly | src/schemas/tdc_time/TdcTime.cpp:57 | a pair of int32 is in lexicographic order, both ways, with all such pairs if and only if it is one itself, or has 2147483647 seconds and too many nanoseconds |
| Timestamps.PairRoundTrip | src/schemas/tdc_time/TdcTime.cpp:57 | a timestamp gives its pair back if and only if the pair was of that kind |
| Timestamps.NotNormal | src/schemas/tdc_time/TdcTime.cpp:57 | concrete pairs outside of that kind that collide and that come out of order |
| Timestamps.Converter.Create | src/schemas/tdc_time/TdcTime.cpp:62-100 | a message with the next sequence number exactly for an accepted array; a rejected one uses up none |
| Timestamps.Converter.CreateAll | src/schemas/tdc_time/TdcTime.cpp:62-100 | any run of updates gives the specified messages, and the counter ends as many further on as there are messages |
| Timestamps.AcceptedExactly | src/schemas/tdc_time/TdcTime.cpp:62-98 | accepted are exactly the updates with the structure ID "epics:nt/NTScalarArray:1.0", int elements, and an even number of them above zero |
| Timestamps.SequenceIsConsecutive | src/schemas/tdc_time/TdcTime.cpp:25-41 | over any run of updates the messages are those of the accepted arrays in order, with consecutive sequence numbers |

## Left out

- Batches.TakenIsLongest: the 32-bit count of dequeued entries is unbounded here; it could only wrap around in one call that takes 2^32 null updates.
- PipelineTheorems.InOrderWithOneWorker: says nothing for several workers, because the code keeps no order between them; AlarmWorkers.SeveralWorkersExactly shows a consequence.
- PipelineTheorems.ShutdownNeverWaits: says nothing before the workers have joined, because a worker inside a fill may hold the last reference to a stream.
- PipelineShutdown.JoinsExactly: says that all threads can still be joined by some continuation, not that every schedule does it; the snapshot that a visit reads is arbitrary, as the queue library's size is.
- Timestamps.PairsInOrder: normal pairs only; InOrderExactly says which other pairs are in order with them.
- KafkaLedger.StaleExactly: the value of a size read after its message was deleted is not modelled; the byte counts take it to be the size the message had.
- KafkaHeap.ProducerTopic.Produce: one call on its own objects, so reports in the middle of it are in KafkaLedger only.
- AlarmDelta.LosslessExactly: is about the alarm status alone; the severity is not tracked by the flag, which compares messages only.
- Mappings.OneLivePerName: streams and converters are numbered values there and in ForwarderHeap, so pointers are numbers, and an expired weak pointer is one that no path of a live stream uses.
- A stream that is removed while the scheduler is in its `fillConversionQueue`, which then runs the destructors in that worker: in the model a visit is one step, and whether those destructors ever return is not followed.
- Failing `enqueue`, exceptions inside converters, and sleeping in the destructor of a path.
- EPICS, librdkafka, flatbuffers, JSON text and the type dispatch of the f142 converter: only the values they carry are modelled.
- Kafka consumer, configuration files, command-line options, timers, metrics, status reports, logging and `RangeSet`.
