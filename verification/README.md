# Verified model of the metrics module

This Dafny project models the part of the repository that carries metrics from a container's UDP port to the
collector, and proves what it promises over every input and every run:

* **Tag, chunk, parse** (`Text`, `Sequences`, `Memory`, `StatsdTagger`, `StatsdParser`, `ParserLaws`, `TagRoundTrip`,
  `StatsdWriter`, `WriterRuns`, `WriterModes`, `ContainerReader`). Packets are split into lines, each line is tagged in place in a 65536-byte buffer,
  and tagged lines are packed into UDP packets. The tagger and the parser are a printer and a parser of one format.
* **Ports and recovery** (`RangePool`, `PortRange`, `StringOrder`, `StateCache`, `ContainerAssigner`, `Isolator`). An
  allocator, a map of readers, an on-disk cache and the reconciliation at start-up have to agree over whole runs.
* **The ticketed call** (`SyncUtil`, `TicketProtocol`). A caller may give up and leave while a worker still holds
  pointers into its stack frame. Every interleaving of callers and workers is covered, the mutex included.
* **The TCP session** (`TcpSender`), **the encoder and its batches** (`AvroEncoder`, `CollectorWriter`, `SampleCodec`).
* **Downstream** (`Framework`, `CollectorPath`, `CollectorSession`, `StoreKey`). What the collector makes of a list of
  datapoints, of a whole run of the writer, what the bytes of each connection are, and the keys under which the HTTP producer stores them.

## How it is written

State that the program updates in place is a class or an array here too. Each such method is proved equal to a
specification function of the old state; the properties are then proved of those functions, over whole runs, and say in
terms of the input what a call comes to, with every constant of the program written out once more. Bytes are `char`s. A run is a sequence of events; what the environment decides (which sockets open, which writes fail, when timers
fire, in which order callbacks come) is a parameter of the event, so the theorems hold for every choice.

* `AvroEncoder.Write` and the events of `CollectorWriter` take the wall-clock time as an input. `std::stod` is a
  parameter, a partial function to the reals.
* The sockets that can be opened while an IO job runs are a parameter of that job, for each container and port.
* A reader listens on exactly the port it was created for, since ports of the range are never 0. The model also lets a
  reader lose its endpoint (`PortRange.Lose`), which the real reader does not do, because the strategy has a branch for it.
* A container is identified by the value of its id alone, as the program's comparators do
  (`mesos_module/mesos_hash.hpp:11-27`).

## What the code does that its documentation, or a reader, might not expect

* In the timer and receive callbacks the condition `boost::asio::error::operation_aborted` is a non-zero constant, so any
  error, not only a cancellation, ends the loop (`mesos_module/statsd_output_writer.cpp:158-162`,
  `mesos_module/collector_output_writer.cpp:113-117`, `mesos_module/container_reader_impl.cpp:133-137`). The model follows
  the code.
* A sample rate is applied only after a `c` type section (`mesos_module/avro_encoder.cpp:210-233`); the tests that expect
  scaling without a type are stale (`mesos_module/tests/avro_encoder_tests.cpp:923-936`).
* The constructor of the collector writer does not set `datapoint_count` (`mesos_module/collector_output_writer.cpp:41-56`);
  the model starts it at 0.
* A tag section with content that ends in `#` gets no comma before the added tags, which merges the first of them into
  the last tag: exactly one tag is lost (`TagRoundTrip.ParseTagged`).
* A message whose tagged size exceeds 65536 goes out untagged, ahead of what is pending, which it overtakes
  (`WriterRuns.BypassOvertakes`).
* A datagram of no bytes produces one empty message; the conservation theorems are about non-empty messages.
* A datapoint capacity of 0 acts like 1, so a block holds at most max(1, capacity) datapoints.
* Container ids that differ only in slashes share a cache file, and the last one written wins (`StateCache.SlashesCollide`).
* The cache keeps the entry of a container whose port could not be taken again, so later two entries may name one port;
  then the container with the smaller id gets it (`ContainerAssigner.RecoveredKeeps`).
* The pending byte count of the TCP sender becomes too small in exactly one kind of step: a write of an earlier session
  reports success while a later session is live (`TcpSender.StaysExact`, with a run in `TcpSender.LateWriteSpoilsCount`).
  Then more than the limit can be in flight (`TcpSender.InFlightIsBounded`).
* Untagged datapoints of unknown containers are encoded in a list without tags. The collector takes that for an error,
  logs it and passes on a message without datapoints (`collectors/framework/framework.go:176-180`), so they are lost
  (`Framework.UnknownUntaggedRefused`).
* A `.#` in a name or a tag value, or a colon in a tag key, can make different datapoints share a store key
  (`StoreKey.SeparatorInNameCollides`, `StoreKey.SeparatorInValueCollides`, `StoreKey.ColonInKeyCollides`); every tagged
  datapoint shares its key with an untagged one whose name spells the tags out (`StoreKey.KeyIsShared`).

## Model

| member | source | states |
|---|---|---|
| Memory.MemNMem | mesos_module/memnmem.cpp:9-33 | the bounded search returns the first occurrence of the needle, or none if there is none or the needle is empty, and reads nothing outside the haystack |
| Memory.FirstMatchMeans | mesos_module/memnmem.cpp:5-8 | the specification of that search: a match at the result and none before it |
| StatsdTagger.ReplaceAll | mesos_module/statsd_tagger.cpp:38-47 | terminates although the size left need not fall, replaces every search byte of the range and changes no other byte of the buffer |
| StatsdTagger.KeyPrefixCalculateSize | mesos_module/statsd_tagger.cpp:50-63 | the size announced is the number of bytes that the copy then writes |
| StatsdTagger.KeyPrefixTagCopy | mesos_module/statsd_tagger.cpp:65-109 | writes exactly the prefixed message at the given place and leaves the rest of the buffer alone |
| StatsdTagger.KeyPrefixDecodes | mesos_module/statsd_tagger.cpp:69-108 | cutting the output at its first three dots (one for an unknown container) gives back the dot-replaced ids and the message unchanged, whatever dots the message has |
| StatsdTagger.DatadogTagger.CalculateTagSection | mesos_module/statsd_tagger.cpp:211-255 | finds the insertion point and the mode: the end of the first tag section, and whether a comma is needed |
| StatsdTagger.DatadogTagger.CalculateSize | mesos_module/statsd_tagger.cpp:123-174 | in every mode, the size announced is the number of bytes that the copy then writes |
| StatsdTagger.DatadogTagger.AppendTag | mesos_module/statsd_tagger.cpp:258-284 | writes the delimiter of the mode and the tag, nothing else, and moves the mode on |
| StatsdTagger.DatadogTagger.AppendKeyValue | mesos_module/statsd_tagger.cpp:286-320 | the same for a key and a value |
| StatsdTagger.DatadogTagger.TagCopy | mesos_module/statsd_tagger.cpp:176-208 | after the size was calculated for the same message, writes exactly the tagged message and no byte elsewhere; without that, writes nothing; the plan is used up |
| StatsdParser.ParseDatadogTags | mesos_module/avro_encoder.cpp:113-153 | the pointer walk equals splitting at commas and then at the first colon, all-empty tags dropped; terminates within the section |
| StatsdParser.ParseSection | mesos_module/avro_encoder.cpp:208-251 | one section: tags, a sample rate that only scales counters whose type came first, or a type |
| StatsdParser.ParseStatsdNameValTags | mesos_module/avro_encoder.cpp:155-258 | for every input, the in-place parser equals the specification by splitting, and appends to tags already present |
| StatsdParser.TagsPassThrough | mesos_module/avro_encoder.cpp:155-157 | tags already present stay in front and change neither value nor further tags |
| ParserLaws.OneMoreSection | mesos_module/avro_encoder.cpp:200-257 | one section more: a rate divides the value exactly if the last type section before it is `c` and it is a non-zero number, tags are added, and nothing else changes |
| ParserLaws.NameAndNumber | mesos_module/avro_encoder.cpp:162-195 | without sections, the name ends at the first colon and the value is the number after it, or 0 if that is none |
| ParserLaws.NameAlone | mesos_module/avro_encoder.cpp:168-171 | without a colon the whole text is the name and the value is 0 |
| ParserLaws.CounterIsScaled | mesos_module/avro_encoder.cpp:210-240 | of every message of a name, a number, a type and then a rate: the value times the rate is the number if the type is `c` and the rate a non-zero number, and otherwise the value is the number |
| ParserLaws.RateNeedsType | mesos_module/avro_encoder.cpp:210-213 | a rate without a type before it does nothing, even if the type follows |
| ParserLaws.TagMeans | mesos_module/avro_encoder.cpp:113-153 | a tag is a key, or a key and the value after the first colon; one with neither is dropped |
| TagRoundTrip.TagListConcat | mesos_module/avro_encoder.cpp:113-153 | commas, and nothing else, separate tags |
| TagRoundTrip.SplitTagged | mesos_module/statsd_tagger.cpp:211-255 | the tagger, seen by sections: the added text goes to the end of the first tag section, or into a new last one, and no other section changes |
| TagRoundTrip.TagTextMeans | mesos_module/statsd_tagger.cpp:190-200 | the added text parses as framework_id, executor_id, container_id, or as the unknown tag |
| TagRoundTrip.ParseTagged | mesos_module/statsd_tagger.cpp:176-255 | parsing the tagged message gives its name and value, and its tags with the sender's spliced in after the first tag section, if and only if that section is `#` alone or does not end in `#`; otherwise exactly one tag is lost |
| TagRoundTrip.TagLost | mesos_module/statsd_tagger.cpp:242-248 | such a message: a name with the tag section `#a#` is tagged so that it reads back with the one tag `a#unknown_container` |
| WriterModes.KeyPrefixMode | mesos_module/statsd_tagger.cpp:65-109 | the prefixed message byte for byte: framework, executor and container with `_` for dots, each followed by a dot, or `unknown_container.` |
| WriterModes.DatadogModeWithoutTags | mesos_module/statsd_tagger.cpp:176-255 | a message without tags gets a section with the sender's ids under their keys, or `unknown_container` |
| WriterModes.DatadogModeWithTags | mesos_module/statsd_tagger.cpp:176-255 | a message with tags gets the same at the end of its first tag section, after a comma unless that section is empty or ends in a comma or `#` |
| StatsdWriter.ChunkSize | mesos_module/statsd_output_writer.cpp:12-26 | the chunk size in use is always between 1 and 65536: the configured one when that is valid, the default for 0, 65536 for more |
| StatsdWriter.StatsdOutputWriter.TagCopy | mesos_module/statsd_tagger.cpp:26-30 | for the null, key prefix and Datadog taggers: writes the tagged message and no byte elsewhere |
| StatsdWriter.StatsdOutputWriter.WriteContainerStatsd | mesos_module/statsd_output_writer.cpp:92-149 | the buffer-level write keeps `chunk_used < chunk_capacity <= 65536`, never writes outside the buffer, never subtracts below zero, and does what the specification of the writer says |
| StatsdWriter.StatsdOutputWriter.ChunkFlushCb | mesos_module/statsd_output_writer.cpp:156-173 | sends and empties the chunk; any timer error changes nothing |
| StatsdWriter.StatsdOutputWriter.ShutdownCb | mesos_module/statsd_output_writer.cpp:175-190 | the last chunk is sent |
| WriterRuns.WriteMeans | mesos_module/statsd_output_writer.cpp:92-149 | one message: if its tagged form has at most 65536 bytes, that is the last line afterwards and nothing goes out untagged; if it has more, the raw message goes out at once and nothing else changes |
| WriterRuns.TimerMeans | mesos_module/statsd_output_writer.cpp:156-173 | a flush leaves nothing pending and sends what was in one packet, if anything |
| WriterRuns.Conserves | mesos_module/statsd_output_writer.cpp:92-173 | for every interleaving of messages and flushes, the lines of all packets and of the pending chunk are exactly the messages of at most 65536 tagged bytes, tagged, in the order written, and the larger ones went out untagged, in order |
| WriterRuns.ChunkingRefinesPlainSending | mesos_module/statsd_output_writer.cpp:105-149 | with a final flush, chunking sends the same lines in the same order as sending each message by itself |
| WriterRuns.BypassOvertakes | mesos_module/statsd_output_writer.cpp:98-149 | where an oversize message ends up among everything sent in a whole run: all earlier messages go out before it except those pending when it came, less than a chunk of them, which go out right after it, followed by the later ones |
| WriterRuns.TaggedNewlineFree | mesos_module/statsd_tagger.cpp:176-208 | tags add no newline, so newline-free input stays one line |
| WriterRuns.GreedyPacking | mesos_module/statsd_output_writer.cpp:113-148 | between flushes any two consecutive packets and the newline between them reach the capacity |
| WriterRuns.PacketsBetweenFlushes | mesos_module/statsd_output_writer.cpp:113-148 | n packets since a flush carrying T bytes satisfy floor(n / 2) * (capacity - 1) <= T |
| WriterRuns.PacketSizes | mesos_module/statsd_output_writer.cpp:98-148 | every chunk fits a UDP packet, and one that reaches the capacity holds exactly one message |
| ContainerReader.ContainerReaderImpl.WriteEntries | mesos_module/container_reader_impl.cpp:199-225 | the newline loop terminates and writes exactly the entries of the packet, in order |
| ContainerReader.ContainerReaderImpl.RecvCb | mesos_module/container_reader_impl.cpp:174-232 | a packet is split and attributed while the period's bytes are under the limit, else dropped and counted |
| ContainerReader.ContainerReaderImpl.WriteMessage | mesos_module/container_reader_impl.cpp:234-265 | data is attributed when exactly one container uses the port, and to nobody otherwise |
| ContainerReader.ContainerReaderImpl.LimitResetCb | mesos_module/container_reader_impl.cpp:132-165 | reports the two counts and starts a fresh period; on an error it does nothing |
| ContainerReader.EntriesAreLines | mesos_module/container_reader_impl.cpp:199-225 | the entries of a packet of at least one byte are its non-empty lines, in order |
| ContainerReader.EntriesByLine | mesos_module/container_reader_impl.cpp:199-225 | a packet without newlines is one entry; of others, each line that is not empty is one, in order |
| ContainerReader.AttributedMeans | mesos_module/container_reader_impl.cpp:234-265 | a message names the only container of the port, and nobody if there are none or several; its data stays |
| ContainerReader.ThrottleBound | mesos_module/container_reader_impl.cpp:195-228 | received = accepted + dropped; nothing is accepted with limit 0; else accepted < limit + the size of the last accepted packet |
| ContainerReader.PacketThroughWriter | mesos_module/container_reader_impl.cpp:199-225 | a packet read and then written comes out as its non-empty lines, tagged, in order |
| SyncUtil.Tickets.LockedGetNextTicket | mesos_module/sync_util.cpp:3-8 | a ticket not given out before, now outstanding |
| SyncUtil.Tickets.LockedFindTicket | mesos_module/sync_util.cpp:10-19 | whether the ticket is still outstanding |
| SyncUtil.Tickets.LockedClearTicket | mesos_module/sync_util.cpp:21-24 | the ticket is no longer outstanding; the others are |
| TicketProtocol.StepKeepsInv | mesos_module/sync_util.hpp:22-91 | the inductive invariant of every interleaving of callers and workers, time-outs and spurious wake-ups included |
| TicketProtocol.FrameAlive | mesos_module/sync_util.hpp:123-146 | a worker writes the caller's result or signals its condition variable only while that caller still waits for its ticket |
| TicketProtocol.UnlockedReadsAreStable | mesos_module/sync_util.hpp:75-90 | once the ticket is cleared no action changes the result, so the unlocked reads race with no write |
| TicketProtocol.MutualExclusion | mesos_module/sync_util.hpp:33-45 | no two threads are ever inside the locked sections |
| TicketProtocol.ResultsExactlyOnce | mesos_module/sync_util.hpp:22-91 | every result is passed once or discarded once; a non-empty return is the call's own result; an empty one needs a finite timeout and then the result is never passed |
| TicketProtocol.NoLostWakeup | mesos_module/sync_util.hpp:45-72 | a caller still waiting after its worker is done has been signalled and will find its own result |
| TicketProtocol.ReturnIsFinal | mesos_module/sync_util.hpp:80-90 | nothing that happens after a call returned changes its abandoned frame |
| TicketProtocol.NoDeadlock | mesos_module/sync_util.hpp:22-146 | in every reachable state with a call not returned or a worker not done, some action other than a spurious wake-up is possible |
| TicketProtocol.RunsAreBounded | mesos_module/sync_util.hpp:22-146 | every action but a spurious wake-up brings its call closer to its end, so a run is no longer than the work to do and twice its spurious wake-ups |
| RangePool.FirstFreeMeans | mesos_module/range_pool.hpp:24-37 | the value taken is the smallest unused one |
| RangePool.TakeFailsWhenDepleted | mesos_module/range_pool.hpp:32-36 | taking fails exactly when every value of the range is in use |
| RangePool.ReturnedMeans | mesos_module/range_pool.hpp:43-86 | returning a value in use undoes taking it; returning any other is fatal and frees nothing |
| RangePool.RangePool.Take | mesos_module/range_pool.hpp:24-37 | the scan of the bit vector takes the smallest unused value |
| RangePool.RangePool.Get | mesos_module/range_pool.hpp:43-65 | reserves the value exactly when it is in the range and unused |
| RangePool.RangePool.Put | mesos_module/range_pool.hpp:70-86 | frees a value in use; anything else is the fatal error |
| PortRange.PortRangeStrategy.RegisterContainer | mesos_module/container_assigner_strategy.cpp:234-286 | reuses the reader of a known container, else takes a port and gives it back if it cannot be opened; no `put` is fatal |
| PortRange.PortRangeStrategy.InsertContainer | mesos_module/container_assigner_strategy.cpp:288-320 | takes the given port or changes nothing; no `put` is fatal |
| PortRange.PortRangeStrategy.UnregisterContainer | mesos_module/container_assigner_strategy.cpp:322-343 | gives the port back, unless the reader lost its endpoint, and forgets the container; no `put` is fatal |
| PortRange.RunKeepsOk | mesos_module/container_assigner_strategy.cpp:234-343 | over every run, container to port is injective, held ports are marked as used, and no `put` is fatal |
| PortRange.RunLeaks | mesos_module/container_assigner_strategy.cpp:288-343 | used ports are the held ones plus exactly one for each event that opens a second port for a container or unregisters one whose reader lost its endpoint |
| PortRange.RefusedOnlyWhenDepleted | mesos_module/container_assigner_strategy.cpp:257-278 | from the start, a new container gets no port exactly when held and lost ports make up the range, or the smallest free one does not open |
| PortRange.RegisteredEndpoint | mesos_module/container_assigner_strategy.cpp:234-286 | what registering returns: the port of the reader that is there, else the smallest free port with a new reader on it, else nothing, and only if there is no such port or it does not open |
| PortRange.OthersKeepTheirPort | mesos_module/container_assigner_strategy.cpp:234-343 | no event about one container changes the reader of another |
| PortRange.UnregisterUndoesRegister | mesos_module/container_assigner_strategy.cpp:322-343 | registering and then unregistering restores the whole state |
| PortRange.UnregisterFreesItsPort | mesos_module/container_assigner_strategy.cpp:322-343 | whatever happened to others meanwhile, unregistering frees the container's port |
| StateCache.ContainerStateCacheImpl.AddContainer | mesos_module/container_state_cache_impl.cpp:122-141 | writes one file, named by the id without slashes |
| StateCache.ContainerStateCacheImpl.RemoveContainer | mesos_module/container_state_cache_impl.cpp:143-150 | removes that file |
| StateCache.ContainerStateCacheImpl.GetContainers | mesos_module/container_state_cache_impl.cpp:48-120 | skips unusable files, the first entry for an id wins; with files as `add` leaves them, the listing order makes no difference |
| StateCache.ReadingIsOrderless | mesos_module/container_state_cache_impl.cpp:56-118 | whatever order the directory lists its files in, the same map is read |
| StateCache.AddThenRead | mesos_module/container_state_cache_impl.cpp:122-141 | reading after an add: the entry is there and exactly the entries sharing its file name are gone |
| StateCache.RemoveThenRead | mesos_module/container_state_cache_impl.cpp:143-150 | reading after a remove: exactly the entries sharing the file name are gone |
| StateCache.SlashesCollide | mesos_module/container_state_cache_impl.cpp:35-37 | two ids that differ in a slash: only the second is remembered |
| StateCache.SanitizedText | mesos_module/container_state_cache_impl.cpp:29-37 | a file name has no slash, and is the id if that has none |
| StateCache.SanitizedParts | mesos_module/container_state_cache_impl.cpp:35-37 | leaving out slashes goes part by part |
| StateCache.FirstEntryStays | mesos_module/container_state_cache_impl.cpp:48-120 | whatever the files hold, an id is read from the first listed file with an entry for it, and only if there is one |
| StringOrder.OrderIsUnique | mesos_module/mesos_hash.hpp:23-27 | there is one ascending listing of a set of ids, which is the order of an ordered map |
| StringOrder.FirstDifferenceDecides | mesos_module/mesos_hash.hpp:23-27 | a text is below its extensions, and the smaller byte at the first difference decides |
| ContainerAssigner.ContainerAssigner.RegisterAndUpdateCache | mesos_module/container_assigner.cpp:194-201 | the cache is written exactly when an endpoint was assigned |
| ContainerAssigner.ContainerAssigner.UnregisterAndUpdateCache | mesos_module/container_assigner.cpp:203-206 | reader and cache entry both go |
| ContainerAssigner.ContainerAssigner.RecoverContainersImp | mesos_module/container_assigner.cpp:108-192 | the step-by-step reconciliation equals its specification, for every listing of the cache files |
| ContainerAssigner.WorkListsPartition | mesos_module/container_assigner.cpp:134-150 | the three lists, each in id order, partition the ids that the cache or the agent knows |
| ContainerAssigner.InsertAllAt | mesos_module/container_assigner.cpp:157-164 | which containers the insertions bind: those first in order to open a free port |
| ContainerAssigner.RecoveredForgets | mesos_module/container_assigner.cpp:169-178 | a container the agent does not know ends with neither reader nor cache entry |
| ContainerAssigner.RecoveredKeeps | mesos_module/container_assigner.cpp:154-164 | a container known to both keeps its entry, and gets its cached port exactly when that is in the range, free, opens, and is not opened first for a smaller id |
| ContainerAssigner.RecoveredRepairs | mesos_module/container_assigner.cpp:180-188 | a container only the agent knows gets a reader and an entry for the same port, or neither, and neither only if the range is depleted or one of its ports does not open for it |
| ContainerAssigner.RecoveryRestoresPorts | mesos_module/container_assigner.cpp:108-192 | from an empty strategy, all three of these for every container at once; ports stay injective and none is lost, so no blind registration takes a port that was restored |
| Isolator.IsolatorProcess.Recover | mesos_module/isolator_module.cpp:47-63 | every recovered id is registered and one recovery is dispatched |
| Isolator.IsolatorProcess.Prepare | mesos_module/isolator_module.cpp:65-90 | a nested debug container is ignored; any other is registered and its registration dispatched, and gets an environment only with an endpoint |
| Isolator.IsolatorProcess.Cleanup | mesos_module/isolator_module.cpp:92-101 | only a registered container is unregistered, once |
| Isolator.CallSettles | mesos_module/isolator_module.cpp:47-101 | what each call comes to once the queue is empty, whatever was queued before: recovery registers all its ids and recovers them, a preparation registers, a clean-up of a registered container unregisters |
| Isolator.PreparedStaysServed | mesos_module/isolator_module.cpp:65-90 | a prepared container stays registered, and over any run without its clean-up or a recovery that lacks it, whenever the queue is empty it has the reader it got, and its entry names that port unless a call is about another container with its file name; it has none only if the range is depleted or a port does not open for it |
| Isolator.RanKeeps | mesos_module/container_assigner.cpp:108-206 | no job lets a reader and its cache entry disagree, and no job loses a port, even recovery in the middle of a run |
| Isolator.CleanedUpIsGone | mesos_module/isolator_module.cpp:92-101 | a container cleaned up and not prepared or recovered again holds nothing once the queue drains, whatever was queued before, so an abandoned registration does not leak |
| Isolator.WholeRunHoldsOnlyRegistered | mesos_module/isolator_module.cpp:47-101 | from a start-up that recovers first, over every run: injective ports, none lost, and outside the registered containers nothing is held once the queue drains |
| Isolator.DrainedKeepsMatched | mesos_module/container_assigner.cpp:194-206 | with distinct file names, exactly the containers with a reader are in the cache, with the reader's port, after any jobs |
| Isolator.RestartRestores | mesos_module/container_assigner.cpp:108-192 | after any jobs from an empty start, for any set of containers still alive and any sockets that open: a container that is gone is forgotten; one alive that had a reader has it again on the same port exactly if that opens; a new one gets a reader and an entry for its port, or the range is depleted, or a port does not open for it; no two share a port |
| TcpSender.MetricsTCPSender.Send | mesos_module/metrics_tcp_sender.cpp:62-87 | accepts exactly the non-empty buffers that a ready session has room for under the limit; counts the others as dropped, or skips them after shutdown |
| TcpSender.MetricsTCPSender.SetStateScheduleConnect | mesos_module/metrics_tcp_sender.cpp:89-104 | schedules one retry unless a connect is already under way, and doubles the delay up to 60 |
| TcpSender.MetricsTCPSender.StartConnect | mesos_module/metrics_tcp_sender.cpp:106-117 | one connect goes into flight, except after shutdown |
| TcpSender.MetricsTCPSender.ConnectDeadlineCb | mesos_module/metrics_tcp_sender.cpp:119-132 | closes the socket only if the deadline really passed and no session is live |
| TcpSender.MetricsTCPSender.ConnectOutcomeCb | mesos_module/metrics_tcp_sender.cpp:134-171 | a failed connect is retried; a good one opens a session whose first queued bytes are the header |
| TcpSender.MetricsTCPSender.SendCb | mesos_module/metrics_tcp_sender.cpp:173-208 | a failed write ends the session and its pending count; a good one reduces the count and makes the session ready |
| TcpSender.StepKeepsInv | mesos_module/metrics_tcp_sender.cpp:50-208 | the inductive invariant of the sender with the callbacks of all its sessions |
| TcpSender.SessionsAreFramed | mesos_module/metrics_tcp_sender.cpp:134-171 | in every reachable state, late callbacks included, each connection carries the header followed by whole accepted buffers, together in the order sent; data is accepted only behind a queued header |
| TcpSender.SenderIsBounded | mesos_module/metrics_tcp_sender.cpp:62-117 | pending bytes never exceed the limit; the delay after k retries in a row is min(60, 2^k); one retry, connect or start job is waiting exactly in the state for it |
| TcpSender.SendAccepts | mesos_module/metrics_tcp_sender.cpp:62-87 | in every reachable state a non-empty buffer is accepted, and queued last on the live session, exactly if the sender is ready and pending and new bytes are within the limit; otherwise nothing changes but the dropped bytes, and those not after shutdown |
| TcpSender.ConnectOpens | mesos_module/metrics_tcp_sender.cpp:89-171 | in every reachable state a connect opens a session with the header exactly if it succeeded before its deadline; otherwise one retry waits, after the current delay, and the next delay is doubled up to 60 |
| TcpSender.WriteCounts | mesos_module/metrics_tcp_sender.cpp:173-208 | in every reachable state the bytes of a write are counted once, as failed or as sent; a failed one closes the socket and leaves a retry or a connect, a good one makes the session ready |
| TcpSender.ConnectsOnFreeSocket | mesos_module/metrics_tcp_sender.cpp:106-117 | a connect never starts on a socket that a session is using |
| TcpSender.DeadlineForcesRetry | mesos_module/metrics_tcp_sender.cpp:119-152 | a connect whose deadline passed is retried after the current delay and opens no session, whatever its outcome says |
| TcpSender.StaysExact | mesos_module/metrics_tcp_sender.cpp:173-208 | the pending count stays equal to the data in flight on the live session in every step except, exactly, a late success of an earlier session |
| TcpSender.DrainedRunsAreExact | mesos_module/metrics_tcp_sender.cpp:173-208 | if old callbacks drain before the next connect, the count is exact throughout |
| TcpSender.LateWriteSpoilsCount | mesos_module/metrics_tcp_sender.cpp:195-204 | a run from the start after which the count is 1 with 2 bytes in flight |
| TcpSender.InFlightIsBounded | mesos_module/metrics_tcp_sender.cpp:62-208 | in every reachable state a ready session has at most the limit in flight, plus the bytes of earlier sessions' writes that succeeded since it was opened, and its header if such a write made it ready |
| AvroEncoder.InitList | mesos_module/avro_encoder.cpp:70-102 | sets the topic if there is none and adds exactly the id tags that the list lacks |
| AvroEncoder.StatsdToMap | mesos_module/avro_encoder.cpp:357-413 | pushing, parsing and moving step by step adds the point with the name, value and time of the message: last among the untagged points of its container, or alone in a new list that ends in its tags; nothing else changes |
| AvroEncoder.OwnList | mesos_module/avro_encoder.cpp:70-102 | the list of a message with tags has the framework as its topic and the three ids before these tags, or `unknown_container` and these tags alone |
| AvroEncoder.MapMeans | mesos_module/avro_encoder.cpp:357-413 | after any messages, a container's untagged points are in order in one list with each id tag once and no custom tag, and each custom-tagged point is alone in its own list, in order |
| AvroEncoder.EmptyMeansNoPoints | mesos_module/avro_encoder.cpp:415-417 | `empty` holds of exactly the lists without datapoints |
| AvroEncoder.EncodeMetricsBlock | mesos_module/avro_encoder.cpp:309-355 | the two passes write the count, the size, the non-empty lists in id order and the sync bytes, or nothing |
| AvroEncoder.BlockRoundTrip | mesos_module/avro_encoder.cpp:340-354 | with any encoding that decodes what it can hold, a block of lists it can hold reads back as exactly those lists, whatever follows |
| AvroEncoder.BlockHoldsEachPoint | mesos_module/avro_encoder.cpp:320-331 | a block holds the point of every message exactly once |
| CollectorWriter.CollectorOutputWriter.WriteContainerStatsd | mesos_module/collector_output_writer.cpp:78-86 | one message is added, and the map is flushed when chunking is off or the capacity is reached |
| CollectorWriter.CollectorOutputWriter.Flush | mesos_module/collector_output_writer.cpp:94-109 | sends the block unless it is empty and clears map and count |
| CollectorWriter.CollectorOutputWriter.ChunkFlushCb | mesos_module/collector_output_writer.cpp:111-129 | flushes only if something is pending; any timer error ends the loop |
| CollectorWriter.RunBatches | mesos_module/collector_output_writer.cpp:78-129 | after any run, the messages are split, in order, into one batch for each buffer sent, each of at most max(1, capacity) messages, and the pending ones |
| CollectorWriter.WriteSendsWhenFull | mesos_module/collector_output_writer.cpp:78-86 | after any run, a write sends one block exactly when it brings the count to max(1, capacity), or to 1 without chunking, and only adds a point otherwise |
| CollectorWriter.NothingLeftPending | mesos_module/collector_output_writer.cpp:94-140 | after any run, a tick of the running timer, or the shutdown, sends what is pending in one block and leaves nothing |
| CollectorWriter.TimerRuns | mesos_module/collector_output_writer.cpp:111-140 | the timer runs with chunking until its first error or the shutdown |
| CollectorWriter.EveryPointOnce | mesos_module/collector_output_writer.cpp:78-129 | blocks sent and pending map hold the point of every message exactly once, and the count is the number of pending points |
| CollectorWriter.SentReadsBack | mesos_module/collector_output_writer.cpp:100-108 | every buffer sent reads back as the lists of its batch, if the encoding can hold them |
| SampleCodec.SampleDecodes | mesos_module/avro_encoder.cpp:315-331 | there is an encoding as these theorems ask for, holding every integer and every list whose values are quotients of integers |
| SampleCodec.ParsedIsRational | mesos_module/avro_encoder.cpp:183-240 | if `std::stod` gives only quotients of integers, as floating-point numbers are, so is every value parsed, scaled by sample rates or not |
| SampleCodec.SampleReadsBack | mesos_module/collector_output_writer.cpp:100-108 | with that encoding and such an `std::stod`, everything sent in any run reads back |
| Framework.ConvertLabels | collectors/framework/record.go:133-145 | the task's labels without the package manager's, the last value for a key staying |
| Framework.TaskLabelAt | collectors/framework/record.go:27-39 | the label of a task for a key is the one it would have with all labels set in order, except for the eight labels of the package manager, which it lacks |
| Framework.LastTagStays | collectors/framework/record.go:133-145 | of labels set in order, the last one for a key stays |
| Framework.ExtractTags | collectors/framework/record.go:58-98 | the loop over tags equals its specification; no tags is an error |
| Framework.Transform | collectors/framework/framework.go:207-278 | every datapoint gets the message's labels, whatever order the map lists them in |
| Framework.SurvivingTags | collectors/framework/record.go:76-95 | exactly the custom tags after the last container id that belongs to a task survive; those before it are lost |
| Framework.CustomTagsSurvive | collectors/framework/framework.go:262-276 | a message with tags of its own arrives with the sender's dimensions and the task's visible labels overridden by its tags; from an unknown container, with its tags alone |
| Framework.UntaggedPointsSurvive | collectors/framework/framework.go:262-276 | messages without tags arrive in order, with the sender's dimensions and the labels of its task |
| Framework.UnknownUntaggedRefused | collectors/framework/record.go:60-64 | a list of untagged points of unknown containers yields no datapoint |
| CollectorPath.BlockArrives | collectors/framework/framework.go:184-279 | encoder and collector together: of the block for any messages, known and unknown containers alike, exactly the messages that should arrive do, in the order of the container ids |
| CollectorPath.CollectorDelivers | collectors/framework/framework.go:184-279 | from a run of the writer to the collector: every buffer sent reads back if the encoding can hold its lists, and of every block exactly what should arrive does; the batches, one for each buffer, and what is pending are all that was written, in order |
| CollectorSession.SessionsReadBack | mesos_module/metrics_tcp_sender.cpp:62-171 | writer and sender together: on every connection, even with lost ones and late callbacks, the bytes are the header and then blocks that read back one after the other as those of the batches accepted on it, which keep the order written |
| CollectorPath.EveryMessageArrives | collectors/framework/record.go:58-145 | every message of a known container, and every one with tags of its own, arrives as a datapoint with the name and value that the parser reads and the task's labels overridden by its tags, in a message with the container, executor, framework and task of its sender |
| StoreKey.SortTags | util/producers/producers.go:20-33 | the pairs in key order, for every iteration order of the map |
| StoreKey.KeyIsCanonical | producers/http/http.go:119-143 | for a fixed prefix, two datapoints share a key if and only if they share name and tags, for names and values without `.#` and keys without `:`; this covers names, keys and values without `#` |
| StoreKey.KeyIsShared | producers/http/http.go:119-143 | for any datapoint at all, another one has its key if and only if it has tags or its name has a `.#` and later a colon: every tagged datapoint shares its key with an untagged one |
| StoreKey.SeparatorInNameCollides | producers/http/http.go:128-134 | a name that ends in `.#key:value` always shares its key with the name before it and that tag |
| StoreKey.ColonInKeyCollides | producers/http/http.go:128-134 | a tag key with a colon always shares its store key with another tag |
| StoreKey.SeparatorInValueCollides | producers/http/http.go:128-134 | a value that ends in `.#key:value`, with a greater key, always shares its store key with two tags |
| StoreKey.ProducerImpl.WriteObjectToStore | producers/http/http.go:119-138 | the datapoint is stored under its key and no other key changes |
| StoreKey.StoreKeepsLatest | producers/http/http.go:119-138 | for each name and tags, the store holds the datapoint written last |

## Left out

- `EphemeralPortStrategy` and `SinglePortStrategy`: one map of readers, or one reader, without the allocator; easier than the strategy modelled.
- The UDP sender's DNS lookups and sockets: sending appends to a log and ignores empty packets.
- Avro's byte encoding: numbers and lists are encoded by parameters that decode to what was encoded where they can hold it, which a fixed-size encoding need not do for all integers and reals; `SampleCodec` shows that the requirements can be met; the file header is a constant of the sender.
- IEEE rounding and NaN: values are reals and `std::stod` is a parameter, so the collector's NaN replacement is not modelled.
- Wrap-around of `size_t` counters: sizes, byte counts and tickets are unbounded; the no-underflow obligations of the statsd writer are proved.
- File system failures (directory not creatable, write or removal failing): a write under a usable name works; names that mean a directory are never written.
- Overlapping `async_write` calls on one socket: each session's buffers are queued, and called back, in the order written.
- Timing: timers, deadlines and time-outs may fire at any moment the code allows; how long they wait is modelled only for the reconnect delay.
- Fairness of the scheduler: the ticketed call is shown free of deadlock and bounded but for spurious wake-ups; that a possible action is ever taken, or that the IO thread drains its queue, is not claimed.
- Executor information held by the readers of the port strategy, and the host part of endpoints: only ports are tracked there.
- `ContainerAssigner::init` and its double-call check, module factories, parameters and logging.
- Draining the reader's socket at shutdown.
- The Go collector's connection handling, its input limit and its channels; the janitor of the HTTP producer; the external store package beyond a map with `Set`.
- Node and agent collectors, HTTP handlers and the other producers and plugins.
