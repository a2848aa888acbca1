# Netsim: a verified model of the acoustic-modem network simulator

Netsim connects acoustic modems through a simulated ocean. Audio captured from one modem is cut
into packets by a detector, crosses (over a bridge, if needed) to the processors of all other
modems, and is played back to them; around this pipeline sit a message-level simulator, a
controller protocol, a packet logger and the preparation of the propagation model's input. This
project models that logic in Dafny and proves what it guarantees, over every input and every run.

| files | part of Netsim |
|---|---|
| `Common`, `Audio`, `Detector`, `Segmentation`, `DetectorTheorems`, `ColdStart`, `RingResizes`, `ContinuousMode`, `DetectorSteps` | the packet detector: its step-by-step form, an independent description of its packets, and the proof that it publishes exactly those, in both modes; its first blocks, and resizes of its ring |
| `Playback`, `PlaybackTheorems`, `PacketStart`, `PacketPlayback`, `PacketTiming`, `StartTiming` | the playback queue with its carried index, refining a flat sample stream; when a packet begins, how it plays, and what underruns do to it |
| `EndToEnd` | detector, echo processor and playback composed |
| `Capture` | the queue between the realtime callback and the publishing thread |
| `Routing` | which thread runs where, who subscribes to what, and the bridges as a system of FIFO links |
| `DelayLine`, `DelayLineTheorems`, `MppTable` | netsim_udp: messages waiting for a response and for their travel time; the performance table |
| `Framing`, `FramingTheorems` | the line protocol over a chunked byte stream, with base64 (section 4 of RFC 4648) |
| `GridScan` | the range/depth scan of netsim_tool |
| `Logger` | the packet logger and its all-closed event |
| `SoundSpeed`, `SspGrid` | profile update and lookup in iBellhop; the range-dependent grid of the acoustic toolbox |
| `Gps`, `Manager` | netsim_manager: position fields, configuration, navigation requests |

Objects that change their fields are classes, and each method is proved equal to a function of the
old state; the theorems are about those functions and their runs. Samples, times and angles are
real numbers.

Where the code and its own words differ, the model follows the code:

- The packet counter (detector.h:77) is one per detector, so ids repeat across transmitters. The
  logger's key for a receiver does not name the transmitter, and two packets with one id on their
  way to one receiver share a file entry. A file holds its own packet exactly if nothing else with
  that id goes to that receiver before the packet's END (`Logger.FileIsOwnIff`).
- Resizing the pre-trigger ring pads it with null pointers. Before the first block that only
  suppresses STARTs; after it, a null block can be published (`ColdStart.NullIsPublishedIff`), and
  shrinking the ring leaves a gap (`RingResizes.ShrinkingLeavesAGap`). Over runs with resizes, what a
  trigger publishes is a contiguous run of the input exactly if nothing older is left in the ring
  than the blocks since the last resize that left its mark (`RingResizes.TriggerIsContiguousIff`).
- A packet of fewer blocks than `min_playback_buffer_size` is never played
  (`PacketStart.ShortPacketIsNeverPlayed`).
- A late block shorter than the zeros played in its place loses time
  (`PlaybackTheorems.PushKeepsAlignment`, `PlaybackTheorems.ShortLateBlockLosesTime`).
- A response for an unknown receiver is meant to be ignored (main.cpp:292-297 of netsim_udp); in
  fact the lookup throws, and a receiver with modem id 0 is the one that is ignored
  (`DelayLineTheorems.ResponseOutcome`). Of two modems on one port only the first can be named by a
  response. Copies for a pair wait forever exactly if the receiver's id is 0 or one of the two ids is
  not the first on any port (`DelayLineTheorems.AnsweredIff`, `ReachableIff`,
  `UnansweredWaitsForever`).
- Parsed lines do not depend on chunking exactly if each line followed by more bytes has two
  delimiters (`FramingTheorems.ChunkingMattersIff`; `OneStreamTwoReadings` is a stream read two ways).
- The all-closed event goes out once for every burst of a packet's blocks; it goes out exactly once
  if and only if each block but the first comes while some receiver's stream is pending
  (`Logger.BurstsAreClosed`, `Logger.ClosedExactlyOnce`).
- A profile of a single sample is looked up as zero everywhere, also at that sample.
- A lookup in the profile reads EOFs that the lower sample may not have; a sample added by an update
  has none (`SoundSpeed.ReportedSpeedIsReadBack`, `SoundSpeed.AddedSampleIsOutOfBounds`).
- "SSP grid must have same depths for all ranges" is checked on depths truncated to whole metres,
  and not on the last depth of a column (`SspGrid.ThrowsIff`, `SspGrid.DifferentDepthsGetAGrid`).
- netsim_tool compares a tick counter with multiples of the slot for equality. It ever transmits, and
  ever quits, exactly if twice the slot is a positive whole number of ticks
  (`GridScan.TransmitsIff`); it scans the grid as intended exactly if, besides, half a slot is whole
  or there is one grid point only (`GridScan.ScansIff`; examples of both failures are
  `SomeSlotsNeverTransmit` and `SomeSlotsScanOutOfPosition`).

## Model

| member | source | states |
|---|---|---|
| Detector.DetectorThread.constructor | src/apps/netsim_core/detector.h:214-221 | a new detector is idle, with a ring of one block and packet id -1 |
| Detector.DetectorThread.BufferSizeChange | src/apps/netsim_core/detector.h:54-62 | the ring gets the new size (at least one), padded with nulls if it grows |
| Detector.DetectorThread.AudioIn | src/apps/netsim_core/detector.h:68-212 | one captured block changes the state and is published as the step function says, in both modes |
| Detector.DetectorThread.DrainPrebuffer | src/apps/netsim_core/detector.h:110-140 | the ring is published in order, front as START, unless its front is null |
| Detector.DetectorThread.ScanInPacket | src/apps/netsim_core/detector.h:158-198 | the sample loop ends the packet or leaves the counter as the recursive scan does |
| Segmentation.ScanMeasuresQuietRun | src/apps/netsim_core/detector.h:158-169 | the silence counter is the length of the trailing quiet run of all samples counted since START, and the packet ends in exactly the block where such a run first reaches the limit |
| Segmentation.NextTriggerIsTheFirst | src/apps/netsim_core/detector.h:82-96 | the trigger is the first block with a loud sample |
| Segmentation.NextEndIsTheFirst | src/apps/netsim_core/detector.h:158-186 | the END is the first block by which a long enough quiet run has been counted |
| Segmentation.PacketsAreInOrder | src/apps/netsim_core/detector.h:79-211 | successive packets are in order, and the part up to the trigger has min(capacity, blocks since the previous END) blocks |
| Segmentation.InOrderMeansDisjoint | src/apps/netsim_core/detector.h:79-211 | no two packets share a block |
| Segmentation.InOrderBounds | src/apps/netsim_core/detector.h:79-211 | every packet is a well-formed run of input blocks |
| Segmentation.PacketCarriesASlice | src/apps/netsim_core/detector.h:110-210 | the blocks of a packet carry one contiguous slice of the captured sample stream |
| DetectorTheorems.RunFromIdle | src/apps/netsim_core/detector.h:79-143 | from any idle point of any input, what is published is the rendering of the packets from there on |
| DetectorTheorems.RunFromPacket | src/apps/netsim_core/detector.h:158-211 | inside a packet, what is published is its rest up to its END and then all later packets |
| DetectorTheorems.PublishedIsThePackets | src/apps/netsim_core/detector.h:79-211 | without null placeholders, the whole published trace is exactly the rendering of the packets of (ring contents followed by the input), numbered consecutively |
| ColdStart.ResizesBeforeFirstBlock | src/apps/netsim_core/detector.h:54-62 | resizing before the first block leaves as many placeholders as the last size, in a ring as large as the largest |
| ColdStart.PlaceholdersAreAPrefix | src/apps/netsim_core/detector.h:81 | until the first drain, placeholders are a prefix of the ring, and each push beyond capacity removes one |
| ColdStart.StartIsMissingIffEarly | src/apps/netsim_core/detector.h:110-141 | a trigger publishes no START exactly while placeholders are left; otherwise it publishes the blocks pushed since the last drain that fit |
| ColdStart.NullIsPublishedIff | src/apps/netsim_core/detector.h:110-141 | a null block is published exactly when a trigger finds a placeholder behind a real front |
| ColdStart.ResizeAfterBlocksPublishesNull | src/apps/netsim_core/detector.h:54-62 | growing the ring after blocks have arrived makes that happen |
| ColdStart.TraceIsGrammatical | src/apps/netsim_core/detector.h:77-211 | over every run, markers follow (START NONE* MIDDLE* END)*, with one id per packet and consecutive ids; a lax reader accepts a missing START |
| ColdStart.DetectorFromTheStart | src/apps/netsim_core/detector.h:54-143 | from the first block on: no null is published, packets are numbered 0, 1, 2, ..., and no START is missing if the ring holds one block |
| ColdStart.StartIsMissingFor | src/apps/netsim_core/detector.h:54-143 | over every run from the first block on, a trigger publishes nothing exactly if fewer blocks have been pushed, itself included, than the ring has places; otherwise its START goes out first |
| ColdStart.CounterStaysInRange | src/apps/netsim_core/detector.h:158-198 | over every run the silence counter is zero while idle and below the limit between blocks |
| RingResizes.TriggerIsContiguousIff | src/apps/netsim_core/detector.h:54-141 | over every run of blocks, all different, and size changes: a trigger publishes its START and then the last blocks pushed since the last drain, without gap or null, if and only if no size change left its mark since then or as many blocks have been pushed since as the ring holds |
| RingResizes.ShrinkingLeavesAGap | src/apps/netsim_core/detector.h:54-62 | shrinking the ring under its contents drops the newest blocks |
| ContinuousMode.PublishedIsTheTrace | src/apps/netsim_core/detector.h:91-210 | in continuous mode, from any idle point of any input, every block is published in order with the markers and ids of the packets found by the first trigger and the first long enough silence, each END block a second time unmarked |
| ContinuousMode.ContinuousModeForwardsAll | src/apps/netsim_core/detector.h:97-107 | the published blocks are the input with each block that ends a packet repeated |
| DetectorSteps.IdleBlockTriggersIff | src/apps/netsim_core/detector.h:82-96 | an idle block starts a packet exactly if some sample of it is at or above the threshold, or at or below minus the threshold; the packet then has the next id and the block's start time |
| DetectorSteps.PacketBlockCounts | src/apps/netsim_core/detector.h:158-198 | in a packet the counter is the number of samples since the last one that is at or beyond the threshold on either side, and the block is published as END exactly if that number reaches the limit at some sample, else as MIDDLE, whatever the ring holds |
| DetectorSteps.BodyIsPublished | src/apps/netsim_core/detector.h:158-211 | the blocks of any packet after its trigger, also of one whose START is missing, are published as MIDDLE up to its END, whatever the ring holds, and the ring is left alone |
| Playback.JackOutput.ReceiveAudioOut | src/apps/netsim_core/jack_thread.h:402-423 | a START empties the queue and announces a new packet; every block is appended |
| Playback.JackOutput.JackProcess | src/apps/netsim_core/jack_thread.h:276-357 | one cycle changes queue, index and flag and writes as the cycle function says |
| Playback.JackOutput.PopPlayed | src/apps/netsim_core/jack_thread.h:333-352 | the inner loop pops every block that the index has run past, down to the empty stand-in, and ends |
| Playback.JackOutput.PlayFrames | src/apps/netsim_core/jack_thread.h:320-355 | the frame loop with its inner pop loop writes and consumes what the play function says, and never pops an empty queue |
| PlaybackTheorems.PlayReadsTheStream | src/apps/netsim_core/jack_thread.h:320-355 | deque and index refine a flat unread stream: a cycle writes its next samples padded with zeros and consumes exactly those, however the stream is cut |
| PlaybackTheorems.PushKeepsAlignment | src/apps/netsim_core/jack_thread.h:334-353 | an arriving block keeps playback aligned with the packet's stream exactly unless it ends an underrun and is shorter than the zeros played |
| PlaybackTheorems.CycleKeepsAlignment | src/apps/netsim_core/jack_thread.h:320-355 | a cycle writes the stream at the current position and moves the position by its frames, underrun or not |
| PlaybackTheorems.UnderrunKeepsTime | src/apps/netsim_core/jack_thread.h:334-353 | over every interleaving, what is written is exactly what is due from arrivals and cycles alone: each sample that has arrived by its cycle at its own position, zeros for the rest; only starved cycles delay, each by one period |
| PlaybackTheorems.DueIsStreamOrZero | src/apps/netsim_core/jack_thread.h:334-353 | what is due at a position is the packet's sample there or, where it had not arrived, a zero |
| PlaybackTheorems.BlocksOfOnePeriodCover | src/apps/netsim_core/jack_thread.h:334-353 | blocks as long as the audio period satisfy the condition of the previous theorem |
| PlaybackTheorems.ShortLateBlockLosesTime | src/apps/netsim_core/jack_thread.h:334-353 | a shorter late block makes a later sample come out early |
| PacketPlayback.TimelyPlayback | src/apps/netsim_core/jack_thread.h:320-357 | without underrun, what is written from a position on is the stream from there on, for every interleaving of arrivals and cycles |
| PacketStart.BeginsIff | src/apps/netsim_core/jack_thread.h:287-318 | a packet is ever played if and only if some cycle finds it due and enough of its blocks queued; otherwise nothing is written |
| PacketStart.BeginsInFirstCycle | src/apps/netsim_core/jack_thread.h:287-318 | it begins in the first such cycle, with the silence that this cycle calls for |
| PacketStart.ShortPacketIsNeverPlayed | src/apps/netsim_core/jack_thread.h:302-312 | a packet of fewer blocks than playback waits for is never written |
| PacketPlayback.WaitingThenPlaying | src/apps/netsim_core/jack_thread.h:287-355 | from the START on, a packet is silent until the first cycle that can begin it, begins there frame_start samples in, and is written without a gap |
| PacketPlayback.PacketPlaysBack | src/apps/netsim_core/jack_thread.h:276-357 | whatever was queued before, a packet begins in the first cycle in which it is due and enough has arrived, and is written as frame_start zeros, its samples, and zeros; it is never written exactly if there is no such cycle |
| PacketTiming.SuppliedIsTimely | src/apps/netsim_core/jack_thread.h:323-353 | a condition on arrivals and cycles alone that rules out underruns: blocks of at least a period, and more blocks than cycles before each cycle that precedes the last arrival |
| PacketTiming.PacketKeepsTime | src/apps/netsim_core/jack_thread.h:276-357 | a whole packet from its START with underruns that late blocks cover: frame_start zeros, then exactly what is due, each sample that has arrived by its cycle at its own position, delayed by one period per starved cycle only |
| PacketTiming.PeriodicPacketKeepsTime | src/apps/netsim_core/jack_thread.h:276-357 | the same for every packet whose blocks are one period long, for every interleaving |
| StartTiming.FirstSampleOnTime | src/apps/netsim_core/jack_thread.h:287-318 | a packet that begins in a cycle has its first sample in the last frame not after its start less the latency, or in the first frame if its start is past; it begins exactly if that frame lies within the cycle and enough is queued |
| StartTiming.TooEarlyIsSilent | src/apps/netsim_core/jack_thread.h:291-300 | a cycle that ends before the start less the latency writes nothing |
| StartTiming.PacketStartsOnTime | src/apps/netsim_core/jack_thread.h:287-318 | over every run from its START, a packet is played exactly if some cycle reaches its start with enough blocks there, and the first such cycle begins it at the frame of its start |
| EndToEnd.OnePacketPerId | src/apps/netsim_core/detector.h:94-136 | the blocks published under the id of packet k are those of packet k |
| EndToEnd.PacketTravelsIntact | src/apps/netsim_core/jack_thread.h:276-423 | the detector (detector.h:79-211), the echo processor (src/test/processor_echo/processor.h:51-56) and playback composed, for every interleaving without underrun: packet k begins in the first cycle in which it is due and enough has arrived (and is never written exactly if there is none), and what is written is zeros, the slice of the captured stream that it covers, and zeros |
| EndToEnd.SuppliedPacketTravels | src/apps/netsim_core/jack_thread.h:276-423 | the same from a condition on arrivals and cycles alone in place of the absence of underruns |
| EndToEnd.LaterPacketTakesOver | src/apps/netsim_core/jack_thread.h:415-421 | two packets in a row: the second START drops what is unread of the first, and each is written as if alone up to there and from there on |
| Capture.CaptureThread.Process | src/apps/netsim_core/jack_thread.h:221-240 | the realtime callback appends the block |
| Capture.CaptureThread.FirstLock | src/apps/netsim_core/jack_thread.h:434-449 | under the first lock the loop waits, clears a full queue, or takes the front in hand |
| Capture.CaptureThread.PublishUnlocked | src/apps/netsim_core/jack_thread.h:451-453 | the block in hand is published |
| Capture.CaptureThread.SecondLock | src/apps/netsim_core/jack_thread.h:455-459 | the front is removed |
| Capture.EveryBlockIsAccountedFor | src/apps/netsim_core/jack_thread.h:434-459 | in every interleaving with the producer, the block removed is the one just published, and publication is in capture order without duplicates |
| Capture.NeverFullLosesNothing | src/apps/netsim_core/jack_thread.h:434-459 | over every run in which no round finds the maximum waiting, the published blocks and then the queue are all captured blocks, in order, each once |
| Capture.LossNeedsAFullQueue | src/apps/netsim_core/jack_thread.h:441-447 | a block is lost only by the loop finding at least the maximum number waiting |
| Capture.LoopWaitsIffNothingIsQueued | src/apps/netsim_core/jack_thread.h:425-466 | in every interleaving the callback can always capture, and the loop waits exactly while nothing is queued and otherwise has one step to take |
| Routing.LaunchProcessors | src/apps/netsim_core/netsim_core_main.cpp:66-82 | exactly the processors of the owned range are launched, in order: of all modems without a bridge section, and of the range in that section with one |
| Routing.LaunchDetectors | src/apps/netsim_core/netsim_core_main.cpp:84-94 | exactly the detectors of the owned range are launched, through the fall-through switch: all modems without a bridge section, if there are no more than compiled in, and the range in that section with one |
| Routing.DetectorWaitEndsIff | src/apps/netsim_core/netsim_core_main.cpp:96-96 | the start-up wait ends exactly if the owned range is a range of compiled-in indices |
| Routing.OneInstanceIsAPartition | src/apps/netsim_core/netsim_core_main.cpp:66-106 | one instance without a bridge section owns every modem |
| Routing.RangesPartition | src/apps/netsim_core/netsim_core_main.cpp:66-106 | bridged instances share out the modems exactly if each modem is in the configured range of one of them |
| Routing.SubscribeBridge | src/apps/netsim_core/bridge.h:47-81 | the bridge subscribes to the owned detectors and to the bridge groups of the others |
| Routing.SubscribeProcessor | src/lib/core/processor.h:53-76 | a processor subscribes to every detector but its own |
| Routing.AudioOutGroupsAreDistinct | src/lib/messages/groups.h:48-56 | output groups of different (from, to) pairs are different |
| Routing.HopKeepsInv | src/apps/netsim_core/bridge.h:88-139 | every hop keeps: received plus on its way is what was detected, in order, at each processor but the modem's own |
| Routing.EveryBlockReachesEveryOtherProcessorOnce | src/apps/netsim_core/bridge.h:50-81 | in every run over instances that partition the modems, each other processor receives every block exactly once and in order, and the modem's own receives none |
| Routing.HopsTerminate | src/apps/netsim_core/bridge.h:104-138 | every hop decreases a measure: bridging never loops |
| Routing.NotQuietMeansEnabled | src/apps/netsim_core/bridge.h:104-138 | some hop is possible exactly while anything is in flight, besides a detection, which always is |
| Routing.RemoteOwnersAreBridged | src/apps/netsim_core/netsim_core_main.cpp:66-106 | the owner of another modem has a bridge that listens, and the source's bridge hears its detector |
| DelayLine.NetSimUdp.constructor | src/apps/netsim_udp/main.cpp:62-69 | the id and port tables keep the first entry per key |
| DelayLine.NetSimUdp.UdpIn | src/apps/netsim_udp/main.cpp:103-139 | a datagram becomes the waiting copies that its sender and destination call for |
| DelayLine.NetSimUdp.ForwardPacket | src/apps/netsim_udp/main.cpp:195-214 | one waiting copy is added |
| DelayLine.NetSimUdp.TravelTime | src/apps/netsim_udp/main.cpp:377-398 | the loop over rays returns the arrival function |
| DelayLine.NetSimUdp.ProcessImpulseResponse | src/apps/netsim_udp/main.cpp:290-375 | a response releases, drops or discards the copies waiting for its pair as the response function says |
| DelayLine.NetSimUdp.Loop | src/apps/netsim_udp/main.cpp:232-241 | a tick sends the due front of the delay buffer |
| DelayLineTheorems.TablesHoldFirstModems | src/apps/netsim_udp/main.cpp:62-69 | a key leads to the first modem configured with it; every id is held once |
| DelayLineTheorems.BroadcastGoesToAllOthers | src/apps/netsim_udp/main.cpp:120-128 | a non-ACK broadcast becomes one copy for each modem but its sender, and no other |
| DelayLineTheorems.DatagramToOneModem | src/apps/netsim_udp/main.cpp:118-139 | any other message, an acknowledgement in any case, becomes one copy from its sender to the modem it names, or none if there is no such modem |
| DelayLineTheorems.DatagramFromNowhere | src/apps/netsim_udp/main.cpp:103-117 | a datagram from an endpoint that is no modem's becomes no copy |
| DelayLineTheorems.InsertKeepsOrder | src/apps/netsim_udp/main.cpp:352-353 | an inserted entry keeps times in order and comes last among those of its time |
| DelayLineTheorems.TickReleasesWhatIsDue | src/apps/netsim_udp/main.cpp:232-241 | a tick releases exactly the entries at or before now, in order of time and then of insertion |
| DelayLineTheorems.FirstArrivalOfLoudestRay | src/apps/netsim_udp/main.cpp:377-398 | travel time is the delay of the first ray of largest absolute amplitude |
| DelayLineTheorems.ArrivalIsDefinedIff | src/apps/netsim_udp/main.cpp:377-398 | it does not depend on the uninitialised variable exactly if some amplitude is nonzero |
| DelayLineTheorems.ResponseOutcome | src/apps/netsim_udp/main.cpp:292-297 | exactly when a response throws, and exactly when it is ignored |
| DelayLineTheorems.ResponseEmptiesItsPair | src/apps/netsim_udp/main.cpp:316-375 | a processed response leaves nothing waiting for its pair and touches no other |
| DelayLineTheorems.ResponseSettlesCopies | src/apps/netsim_udp/main.cpp:316-375 | of the copies waiting for a processed response with rays, exactly those whose draw succeeds enter the delay buffer, keyed by send time plus travel time and behind what was there for that time, and exactly the others are dropped; without rays all are discarded; each in order of arrival |
| DelayLineTheorems.AnyEventIsAllowed | src/apps/netsim_udp/main.cpp:103-375 | datagrams, ticks and responses are possible in every state |
| DelayLineTheorems.StepConserves | src/apps/netsim_udp/main.cpp:103-375 | no step loses or duplicates a copy |
| DelayLineTheorems.RunConserves | src/apps/netsim_udp/main.cpp:103-375 | over any run each accepted copy is in exactly one of waiting, delayed, released, dropped, discarded |
| DelayLineTheorems.EntriesComeFromResponses | src/apps/netsim_udp/main.cpp:316-375 | over any run, each delayed or released copy was given its travel time, arrival plus outlier, by a response for its own pair |
| DelayLineTheorems.NothingLeavesEarly | src/apps/netsim_udp/main.cpp:232-241 | no copy leaves before its send time plus the travel time that such a response gave it |
| DelayLineTheorems.AnsweredIff | src/apps/netsim_udp/main.cpp:292-300 | some response is processed for a pair exactly if the receiver's id is not 0 and both ids are what some port stands for |
| DelayLineTheorems.ReachableIff | src/apps/netsim_udp/main.cpp:62-69 | an id is what some port stands for exactly if a modem with it is the first on its port |
| DelayLineTheorems.UnansweredWaitsForever | src/apps/netsim_udp/main.cpp:292-375 | over every run, the copies of a pair that cannot be answered stay in the waiting buffer |
| DelayLineTheorems.SharedPortIsUnreachable | src/apps/netsim_udp/main.cpp:67-68 | of two modems on one port the second is not what any port stands for |
| MppTable.Performance.constructor | src/apps/netsim_udp/main.cpp:83-99 | the table starts with one entry per unordered pair |
| MppTable.Performance.ProcessPerformanceResponse | src/apps/netsim_udp/main.cpp:243-275 | a report updates the entries of its pairs |
| MppTable.Performance.MppTransmitProbability | src/apps/netsim_udp/main.cpp:277-288 | the loop returns the probability of the pair's entry |
| MppTable.OneEntryPerPair | src/apps/netsim_udp/main.cpp:83-99 | with distinct ids each pair of different modems has exactly one entry |
| MppTable.FreshTableLetsAllThrough | src/apps/netsim_udp/main.cpp:83-99 | before any report every pair transmits with probability one |
| MppTable.LastReportWins | src/apps/netsim_udp/main.cpp:243-288 | after any reports, a pair's probability is that of its last report, in either order of the pair |
| MppTable.TransmitsAsLastReported | src/apps/netsim_udp/main.cpp:243-288 | the probability of a pair is that of the last value reported for it, or of the value it had; zero if it has no entry |
| MppTable.ProbabilityIsClamped | src/apps/netsim_udp/main.cpp:400-403 | probabilities lie between zero and one, and rise with the performance value |
| MppTable.ProbabilityIsLinear | src/apps/netsim_udp/main.cpp:400-403 | between 17.5 and 80 the probability rises in proportion to the value |
| Framing.TcpSession.Write | src/lib/tcp/tcp_session.cpp:77-90 | one frame is appended |
| Framing.TcpSession.Arrive | src/lib/tcp/tcp_session.cpp:40-75 | the re-armed read handles every complete line as the drain function says |
| Framing.DecodeEncode | src/lib/tcp/tcp_session.cpp:51-51 | base64 decoding inverts encoding (section 4 of RFC 4648) |
| Framing.AlphabetIsStandard | src/lib/tcp/tcp_session.cpp:51-51 | the digits are those of Table 1 of RFC 4648, in order |
| Framing.GroupIsTheNumber | src/lib/tcp/tcp_session.cpp:51-51 | the digits of a group are those of its 24-bit number in base 64 |
| Framing.StandardExamples | src/lib/tcp/tcp_session.cpp:51-51 | the examples of section 10 of RFC 4648 |
| Framing.FrameIs | src/lib/tcp/tcp_session.cpp:77-81 | a frame is the preamble, the name and the text without its newlines, separated by bars and ended by a newline |
| FramingTheorems.DrainFrames | src/lib/tcp/tcp_session.cpp:40-75 | what has arrived of a stream of frames yields the complete messages and keeps the beginning of the next |
| FramingTheorems.RoundTrip | src/lib/tcp/tcp_session.cpp:40-90 | any list of messages with clean names is read back, names and bytes, for every line breaking of the encoder and every chunking, with nothing left over |
| FramingTheorems.ChunkingMattersIff | src/lib/tcp/tcp_session.cpp:40-75 | for an arbitrary stream, the result is the same for all chunkings exactly if it is well delimited |
| FramingTheorems.OneStreamTwoReadings | src/lib/tcp/tcp_session.cpp:47-51 | a stream that is two messages in two chunks and one message in one |
| GridScan.NetSimTool.constructor | src/apps/netsim_tool/main.cpp:112-189 | the scan starts at the first point and reports it |
| GridScan.NetSimTool.DriverReady | src/apps/netsim_tool/main.cpp:153-156 | one more driver is ready, nothing else changes |
| GridScan.NetSimTool.Loop | src/apps/netsim_tool/main.cpp:192-259 | one call of the loop is one tick, or nothing before both drivers are ready |
| GridScan.StepsAreWithin | src/apps/netsim_tool/main.cpp:240-252 | a row holds exactly the points within its bounds, and the first one in any case |
| GridScan.GridIsABijection | src/apps/netsim_tool/main.cpp:240-252 | every grid point has exactly one place in the row-major order |
| GridScan.StateAfterTicks | src/apps/netsim_tool/main.cpp:192-259 | the whole state at every tick of every slot, whenever twice the slot is a positive whole number of ticks |
| GridScan.ScanVisitsTheGrid | src/apps/netsim_tool/main.cpp:192-284 | transmissions visit the grid points once each, in row-major order; each with the receiver last reported at that point if it is moved, and otherwise only the first |
| GridScan.QuitsAfterLastSlot | src/apps/netsim_tool/main.cpp:223-228 | with N points and c ticks to two slots it quits on tick (N+1)*c+1 and not before |
| GridScan.WholeScan | src/apps/netsim_tool/main.cpp:192-284 | a run has quit exactly after the last slot, and by then it has transmitted for every grid point once and in order; in position exactly if half a slot is whole or there is one point |
| GridScan.TransmitsIff | src/apps/netsim_tool/main.cpp:197-254 | something is ever transmitted, and the tool ever quits, exactly if twice the slot is a positive whole number of ticks |
| GridScan.ScansIff | src/apps/netsim_tool/main.cpp:192-259 | for every proper grid: all points are transmitted once, in order and in position, and it quits, exactly if twice the slot is a positive whole number of ticks and half a slot is whole or there is one point |
| GridScan.SomeSlotsNeverTransmit | src/apps/netsim_tool/main.cpp:206-207 | a slot of 10.3 ticks: nothing is ever transmitted and the tool never quits |
| GridScan.SomeSlotsScanOutOfPosition | src/apps/netsim_tool/main.cpp:199-203 | a slot of one tick: the run is complete but not in position |
| GridScan.ReceiverStaysPut | src/apps/netsim_tool/main.cpp:197-203 | if half a slot is no whole number of ticks, the receiver is never moved, whether anything is transmitted or not |
| GridScan.StatisticsFollowTransmissions | src/apps/netsim_tool/main.cpp:206-238 | on every tick, for whatever slot length: statistics have been published for the points sent so far except the last, in order, leaving out those without a positive range and depth; when the tool has quit, for the last one too |
| Logger.LoggerThread.LogAudio | src/apps/netsim_core/logger.h:98-164 | one block changes the open files, their contents and the events as the step function says |
| Logger.OpenKeysArePending | src/apps/netsim_core/logger.h:113-148 | over every history, the entries held are exactly the streams whose last block was not an END |
| Logger.SameStreamIff | src/apps/netsim_core/logger.h:98-114 | two blocks belong to one stream exactly if they go the same way with the same id and come from the same transmitter, on the way in, or go to the same receiver, on the way out |
| Logger.EventsFollowTheHistory | src/apps/netsim_core/logger.h:122-163 | PACKET_START goes out at exactly the IN STARTs, ALL_LOGS_CLOSED at exactly the OUT ENDs after which no stream of the packet is pending |
| Logger.BurstsAreClosed | src/apps/netsim_core/logger.h:146-163 | over every history, a packet is announced as closed once for each burst of its blocks, the last one as soon as nothing is pending |
| Logger.ClosedExactlyOnce | src/apps/netsim_core/logger.h:146-163 | once nothing of a packet is pending, it has been announced exactly once if and only if each of its blocks but the first came while some stream of it was pending |
| Logger.LateReceiverIsAnnouncedAgain | src/apps/netsim_core/logger.h:146-163 | a receiver that starts after the others have ended has it announced twice |
| Logger.FileContents | src/apps/netsim_core/logger.h:105-148 | one file per START, in order, holding its start time and the samples of all blocks of its stream from there through the next END or until the next START |
| Logger.FileIsOwnIff | src/apps/netsim_core/logger.h:103-148 | the file of a START holds exactly the blocks of its transmitter and receiver through that transmitter's END if and only if no block with that id goes to that receiver from another transmitter before that END (and the transmitter does not start again) |
| Logger.SameIdSharesAStream | src/apps/netsim_core/logger.h:113-140 | of two packets with one id to one receiver, the second START ends the first file and takes over its blocks |
| SoundSpeed.Bellhop.HandleSspUpdate | src/apps/iBellhop/iBellhop.cpp:177-217 | an update replaces or adds the reported samples one by one and sorts; mismatched lists change nothing |
| SoundSpeed.Bellhop.FindSample | src/apps/iBellhop/iBellhop.cpp:244-255 | the first sample at the depth, or a new one at the end |
| SoundSpeed.Bellhop.GetSspValue | src/apps/iBellhop/iBellhop.cpp:257-292 | the loops return the lookup function, bad reads included |
| SoundSpeed.SortIsUnique | src/apps/iBellhop/iBellhop.cpp:214-215 | for distinct depths any sorted permutation is the same, whatever the algorithm |
| SoundSpeed.UpdateKeepsProfile | src/apps/iBellhop/iBellhop.cpp:196-216 | depths stay distinct, and an accepted update leaves them in ascending order |
| SoundSpeed.OnlyReportedDepthsChange | src/apps/iBellhop/iBellhop.cpp:196-212 | only reported depths change, and there the last report wins, with zero EOFs |
| SoundSpeed.UpdateKeepsEofs | src/apps/iBellhop/iBellhop.cpp:177-212 | mismatched lists change nothing; a reported sample keeps its number of EOFs and an added one has none |
| SoundSpeed.LookUpUsesFirstInterval | src/apps/iBellhop/iBellhop.cpp:266-290 | only the first interval holding the depth counts; without one the answer is zero |
| SoundSpeed.LookUpLiesBetween | src/apps/iBellhop/iBellhop.cpp:266-290 | in range the result lies between the corrected speeds of the two neighbours; out of range it is zero; it is a speed exactly if the reads are in bounds |
| SoundSpeed.LookUpIsOnTheLine | src/apps/iBellhop/iBellhop.cpp:266-290 | in range and in bounds the value lies on the straight line through the corrected speeds of the two neighbours |
| SoundSpeed.CorrectedAdds | src/apps/iBellhop/iBellhop.cpp:272-284 | each EOF that counts adds its value times its coefficient, no other does, and a sample with zero EOFs has its own speed |
| SoundSpeed.ReportedSpeedIsReadBack | src/apps/iBellhop/iBellhop.cpp:177-292 | after an update, a reported depth is looked up with its last reported speed, exactly if there are two samples and the reads are in bounds; a single sample gives zero |
| SoundSpeed.UniformIsInBounds | src/apps/iBellhop/iBellhop.cpp:272-284 | samples with equally many EOFs are always read in bounds |
| SoundSpeed.AddedSampleIsOutOfBounds | src/apps/iBellhop/iBellhop.cpp:253-284 | a sample added below the deepest one is read out of bounds exactly if that one has EOFs and there are coefficients |
| SspGrid.Deepest | src/lib/acousticstoolbox/environment.cpp:99-108 | the first column of greatest positive depth, the first of all if there is none |
| SspGrid.BuildProfile | src/lib/acousticstoolbox/environment.cpp:114-129 | the map from depth to corrected speed of a column |
| SspGrid.ProfileMeans | src/lib/acousticstoolbox/environment.cpp:159-175 | that map is ascending, with the corrected speed of the last sample at each depth, and as long as the column if depths are distinct |
| SspGrid.SpeedAdds | src/lib/acousticstoolbox/environment.cpp:159-175 | the speed of a sample is its own plus each EOF times its coefficient, as far as there are coefficients |
| SspGrid.FillRow | src/lib/acousticstoolbox/environment.cpp:179-206 | a row is the column's speeds extended by its deepest one, or a depth deviates, or the column is too long |
| SspGrid.OutputEnv | src/lib/acousticstoolbox/environment.cpp:99-304 | the two files hold the deepest profile and the transposed rows of all columns; otherwise the first column without a row decides; for regular columns the exception is thrown exactly if some depth deviates |
| SspGrid.WriteLines | src/lib/acousticstoolbox/environment.cpp:300-304 | the .ssp lines are the transposed rows |
| SspGrid.ThrowsIff | src/lib/acousticstoolbox/environment.cpp:183-207 | for regular columns no read is out of bounds, and the exception is thrown exactly if some depth but the last of a column deviates |
| SspGrid.DifferentDepthsGetAGrid | src/lib/acousticstoolbox/environment.cpp:188-199 | two columns with different depths for which no exception is thrown |
| SspGrid.DeepestColumnFits | src/lib/acousticstoolbox/environment.cpp:131-206 | the deepest column always fits; its row is the speeds of the .env file, and both files have one line per depth |
| SspGrid.RowsAreWithinAMetre | src/lib/acousticstoolbox/environment.cpp:188-205 | each entry but the last is the column's own speed at a depth within a metre of the grid depth |
| SspGrid.RowEndsInDeepestSpeed | src/lib/acousticstoolbox/environment.cpp:179-206 | a row is the column's own speeds and then its deepest one, repeated |
| SspGrid.TruncDropsFraction | src/lib/acousticstoolbox/environment.cpp:188-188 | the compared depths are cut off towards zero |
| Gps.DecodedAngleIsClose | src/apps/netsim_manager/manager.cpp:280-297 | minutes are in 0..59 and ten-thousandths in 0..9999, and the decoded angle is the true one cut off by less than 1/600000 degree |
| Gps.FieldsKeepOrder | src/apps/netsim_manager/manager.cpp:280-297 | angles keep their order, and are told apart down to that resolution |
| Gps.PrintedAngleReadsBack | src/apps/netsim_manager/manager.cpp:278-297 | the printed text reads back as the same three integers, and has its fixed width exactly below 100 (latitude) or 1000 (longitude) degrees |
| Gps.PlacesInText | src/apps/netsim_manager/manager.cpp:278-297 | degrees, minutes and ten-thousandths stand at their places in the text, most significant first |
| Gps.PrintedExample | src/apps/netsim_manager/manager.cpp:278-297 | 7 degrees 5.5 minutes are printed as 0705.5000 |
| Manager.NetSimManager.ProcessConfiguration | src/apps/netsim_manager/manager.cpp:116-136 | the program goes on exactly if bounds and ports are unique and every modem's environment has bounds; the tables then hold the configuration |
| Manager.NetSimManager.ProcessRequest | src/apps/netsim_manager/manager.cpp:138-199 | exactly the updates before the first rejected one are passed on, its reason is the answer, the statistics always follow, and everything ever published is legal |
| Manager.Passed | src/apps/netsim_manager/manager.cpp:147-172 | the index of the first update that is not accepted |
| Manager.ForwardedIsLegal | src/apps/netsim_manager/manager.cpp:147-187 | accepted updates go to the environment of their modem and lie within its bounds |
| Manager.AcceptedIff | src/apps/netsim_manager/manager.cpp:147-172 | an update is accepted exactly if its modem is configured, the request comes from that modem's address and the position is within the bounds of its environment; each rejection has its reason |
| Manager.ForwardedInOrder | src/apps/netsim_manager/manager.cpp:174-187 | each initialized update goes out to its environment and then to its GPS line, in order; others are left out |

## Left out

- JACK set-up, ports and connections, and what a port holds in cycles where nothing is written: hardware interface behaviour; the loop over output ports treats each port independently, so one port is modelled.
- Continuous-mode playback: it copies the last frame and keeps almost no state.
- The conversion of frame_start from double to unsigned, and of travel times to microseconds: parameters of the model, as are the sizes computed from the sampling frequency.
- The width of frames_since_silence and of the positions of netsim_tool: unbounded here; the counter stays below the silence limit.
- Floating-point rounding: samples, times, depths, speeds and angles are real numbers, and the overflow of a depth converted to int is not modelled.
- The publish/subscribe layer, serialization and protobuf: reliable first-in first-out delivery per group is assumed.
- Thread start-up waits other than the one for detectors.
- Random draws and the range-to-success table: coin flips and outliers are inputs of a step.
- What netsim_udp does after an exception: the model goes on with its state unchanged.
- Requests that netsim_udp and netsim_manager publish to ask for impulse responses and performance.
- Asio sockets, session lifetime and disconnects: writing appends one frame, reading consumes what has arrived. The base64 code of dccl is not part of this repository; any encoder output that is standard base64 with line breaks anywhere is covered.
- Framing.TcpSession.Arrive: does not model the callbacks by message type, only the list of messages delivered to all of them.
- Logger.LoggerThread.LogAudio: files are records in the order of opening; the effect of opening a file name a second time, buffering and disk errors are not modelled, and the outer levels of the nested map, which are never erased, are not distinguished from empty ones.
- GridScan.NetSimTool.Loop: does not model a lost connection to the manager, or the contents of the statistics.
- SoundSpeed.Bellhop.HandleSspUpdate: the parsing of the message text into depths and speeds is not modelled; "0" and empty speeds are the absent ones.
- SspGrid.OutputEnv: covers the deepest-column choice, the profile of the .env file and the .ssp grid only; the other lines of the files are formatting.
- Gps.PrintedAngleReadsBack: the remaining fields of the sentence (time, date, speed, course) are not modelled.
- UTM geodesy, the Wt interface, scripts, the propagation program and its output parsers, the MOOS translator and the convolution tests: foreign calls or display only.
