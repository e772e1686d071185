# Verified model of the congestion controllers

This project models the congestion-control engine under `internal/congestion` and proves what it keeps on every run. It
covers BBR (ring buffer, packet queue, windowed filter, bandwidth sampler and sender), CUBIC/Reno, the token-bucket pacer
and the Brutal sender. `dafny verify dfyconfig.toml` checks all of it.

## How it is organised

Each component that the source updates in place is a class with the source's fields, and each method is proved to compute
a function on an abstract value; the theorems about whole runs are lemmas about those functions. Private methods of the
objects carry the same kind of contract; of the objects, the table below lists the calls that other code makes.

| file | what it holds |
|---|---|
| Common.dfy | units, Go's truncating division, wrap-around of uint64 bandwidths |
| RingBuffer.dfy, PacketQueue.dfy | the growable ring as a sequence, and on top of it the packet queue as a finite map |
| WindowedFilter.dfy | the three-entry filter against the stream of samples it has seen |
| AckHeight.dfy, AckEpochs.dfy | the ack-height tracker, and what it measures over logs of ack events |
| SamplerModel.dfy, SamplerProofs.dfy, SamplerChoices.dfy, SamplerEvents.dfy, Sampler.dfy | the bandwidth sampler: its functions, its run theorems, and the object over queue, ring and tracker |
| BbrModel.dfy, BbrProofs.dfy, BbrSender.dfy | the BBR sender: one small machine for each group of fields, the invariant of every run, and the object |
| BbrRuns.dfy, BbrModes.dfy, BbrPath.dfy, BbrPacing.dfy, BbrSampling.dfy, BbrSamples.dfy, BbrWindows.dfy, BbrFacts.dfy | behaviour over whole runs: rounds, recovery, STARTUP and PROBE_RTT; DRAIN and the gain cycle; minimum RTT and bandwidth estimate; pacing; the sampler inside the sender and what its samples mean; the windows; losses, limits, the full-bandwidth check and targets |
| Cubic.dfy, CubicSender.dfy | the fixed-point window function and the CUBIC/Reno sender |
| Pacer.dfy, Brutal.dfy | the token bucket and the fixed-rate sender |

The main results:

- BBR: on every run the reported window is within its limits; full bandwidth is latched and separates the modes; STARTUP
  ends after a bounded number of rounds; PROBE_RTT stays last at least 200 ms and one round from the first low in-flight
  event; rounds, GROWTH and the end of recovery all need acks of newer packets; DRAIN is one stretch, gain phases end
  exactly when they should, and PROBE_RTT stays are more than ten seconds apart; the minimum RTT and the bandwidth estimate
  are exact extrema of recent samples. Recovery begins, grows and ends, PROBE_RTT begins and ends, and the window, the
  pacing rate and the targets move exactly as stated on the calls.
- Sampler: exact byte accounting, well-defined slopes and correctly marked app-limited phases on every run of the sampler
  and on every run of the sender that drives it; RTTs are round trips and send slopes span what was sent between two
  sends; pruning of A0 candidates never changes a later answer.
- CUBIC/Reno: window bounds on every run and one cutback for each flight. An ack shrinks the window exactly under a
  condition on the state before it. That condition never arises, down to the rounding of the cube root, as long as event
  time plus minimum RTT does not run backwards within an epoch and stays within 26191/1024 s of the origin point; two
  concrete runs show that neither half can be left out, the second because the int64 product of the curve wraps.
- Pacer and Brutal: token-bucket conformance for varying bandwidth, the earliest wake-up time, the configurations in which
  the send loop cannot get stuck, and a five-slot ring that equals a sum over the event log.

## Reading the model

- Time is a natural number of nanoseconds and 0 is Go's zero `time.Time`; gains are exact reals and conversions to byte
  counts truncate.
- The callers' side is explicit: packet numbers increase, clocks do not run backwards, packets are acked after they were
  sent and reported at most once (the last only for byte accounting), and every congestion event carries a packet,
  because the sender indexes the last one.
- Windows and quic-go's constants (MaxPacketBufferSize, MinPacingDelay, InitialPacketSizeIPv4, MaxCongestionWindowPackets)
  are parameters; the results hold for all their values with minimum <= initial <= maximum window.
- RTT statistics, the random draw for the gain cycle and HybridSlowStart's answer are inputs of each call.

Where code and comments differ, the model follows the code:

- `maxAckHeightTracker.Update` stores the expected bytes in the field documented as the excess
  (internal/congestion/bbr/bandwidth_sampler.go:201-205 against 58-60), and leaves its round 0.
- The last loop of `chooseA0Point` re-reads a shrinking length and pops only half of the candidates
  (internal/congestion/bbr/bandwidth_sampler.go:755-757).
- `LastPacket` of an empty queue is the invalid number, not zero
  (internal/congestion/bbr/packet_number_indexed_queue.go:160-166).
- `SetMaxDatagramSize` of the BBR sender leaves the congestion window as it is, since the minimum window is a constant
  (internal/congestion/bbr/bbr_sender.go:362-372).

## Model

| member | source | states |
|---|---|---|
| RingBuffers.RingBuffer.constructor | internal/congestion/bbr/ringbuffer.go:12-14 | A buffer of any size stands for the empty queue, and its free positions hold the zero value |
| RingBuffers.RingBuffer.Len | internal/congestion/bbr/ringbuffer.go:17-25 | The length computed from the cursors is the length of the queue, wrapped around or full |
| RingBuffers.RingBuffer.Empty | internal/congestion/bbr/ringbuffer.go:28-30 | Says exactly whether the queue is empty |
| RingBuffers.RingBuffer.PushBack | internal/congestion/bbr/ringbuffer.go:34-46 | Appends one element to the queue, growing when full; free positions stay zero |
| RingBuffers.RingBuffer.PopFront | internal/congestion/bbr/ringbuffer.go:51-63 | Removes and returns the oldest element; the freed position is reset to zero |
| RingBuffers.RingBuffer.Position | internal/congestion/bbr/ringbuffer.go:69-75 | The position taken modulo the capacity is in use and holds the requested element of the queue |
| RingBuffers.RingBuffer.Offset | internal/congestion/bbr/ringbuffer.go:69-75 | Returns the requested element of the queue |
| RingBuffers.RingBuffer.Store | internal/congestion/bbr/ringbuffer.go:69-75 | A write through the pointer that Offset returns replaces that element of the queue and no other |
| RingBuffers.StoreInRing | internal/congestion/bbr/ringbuffer.go:69-75 | For every ring and cursors, overwriting the wrapped position overwrites one element of the unrolled queue |
| RingBuffers.RingBuffer.Front | internal/congestion/bbr/ringbuffer.go:80-85 | Returns the oldest element |
| RingBuffers.RingBuffer.Back | internal/congestion/bbr/ringbuffer.go:90-95 | Returns the newest element |
| RingBuffers.RingBuffer.Grow | internal/congestion/bbr/ringbuffer.go:99-109 | Doubles the capacity (0 becomes 1), keeps the queue and moves its oldest element to position 0 |
| RingBuffers.RingBuffer.Clear | internal/congestion/bbr/ringbuffer.go:112-118 | Leaves the empty queue with every position zero |
| PacketQueues.CountIsMapSize | internal/congestion/bbr/packet_number_indexed_queue.go:145-147 | For all slots, the number of present slots is the number of keys of the map they stand for |
| PacketQueues.AppendSlot | internal/congestion/bbr/packet_number_indexed_queue.go:74-86 | Appending a slot adds its key if it is present and nothing otherwise |
| PacketQueues.DropFirstSlot | internal/congestion/bbr/packet_number_indexed_queue.go:125-132 | Dropping the first slot removes its key and, if present, one from the count |
| PacketQueues.ClearSlot | internal/congestion/bbr/packet_number_indexed_queue.go:103-113 | Marking a present slot absent removes its key and one from the count |
| PacketQueues.PacketQueue.constructor | internal/congestion/bbr/packet_number_indexed_queue.go:40-48 | A new queue is the empty map |
| PacketQueues.PacketQueue.Facts | internal/congestion/bbr/packet_number_indexed_queue.go:140-169 | Between calls: the count is the size of the map, no entries means no slots, and the first slot is the smallest key |
| PacketQueues.PacketQueue.Emplace | internal/congestion/bbr/packet_number_indexed_queue.go:54-88 | Succeeds exactly past the last slot and then extends the map by one key; otherwise the map is unchanged |
| PacketQueues.PacketQueue.GetEntry | internal/congestion/bbr/packet_number_indexed_queue.go:92-99 | Is lookup in the map |
| PacketQueues.PacketQueue.Remove | internal/congestion/bbr/packet_number_indexed_queue.go:103-119 | Removes one key and hands back its entry; unknown numbers change nothing |
| PacketQueues.PacketQueue.RemoveUpTo | internal/congestion/bbr/packet_number_indexed_queue.go:124-137 | Keeps exactly the keys at or above the given number |
| PacketQueues.PacketQueue.Clearup | internal/congestion/bbr/packet_number_indexed_queue.go:171-179 | Drops absent slots from the front without changing the map and restores the invariant |
| WindowedFilters.BestIsSuffixMaximum | internal/congestion/bbr/windowed_filter.go:102-151 | After every stream with nondecreasing times: the best is the exact maximum of a suffix that contains its own recording, at most one window ago; the suffix is the whole stream while that fits in a window; the three estimates are ordered by value and time and each tops all samples since its recording; and the latest update kept every estimate that was fresh and renewed the stale ones |
| WindowedFilters.ReplayIsLocated | internal/congestion/bbr/windowed_filter.go:102-151 | The same with the positions in the stream named |
| WindowedFilters.UpdatedIsLocated | internal/congestion/bbr/windowed_filter.go:102-151 | One update keeps the estimates located in the stream, through resets, replacements and both promotions |
| WindowedFilters.ExpiredIsLocated | internal/congestion/bbr/windowed_filter.go:118-150 | Promotion and the quarter and half rules keep the estimates located and the best in its window |
| WindowedFilters.UpdateKeepsFresh | internal/congestion/bbr/windowed_filter.go:102-151 | No estimate is given up early: the new best is at least every old estimate that is still in its window, second and third move up when the best expires, and fall otherwise only when they added nothing and are a quarter or half a window old; none is kept longer than that |
| WindowedFilters.SuffixReachesBack | internal/congestion/bbr/windowed_filter.go:118-135 | After an update the suffix of the best begins where it began before or, once the best has expired, no later than the recording of the freshest estimate that moves up |
| WindowedFilters.UpdatesAreFaithful | internal/congestion/bbr/windowed_filter.go:102-151 | Both, after every stream |
| WindowedFilters.WindowedFilter.Update | internal/congestion/bbr/windowed_filter.go:102-151 | The in-place update is the update of those theorems on the three estimates |
| WindowedFilters.WindowedFilter.Reset | internal/congestion/bbr/windowed_filter.go:154-158 | All three estimates become the new sample |
| WindowedFilters.WindowedFilter.Clear | internal/congestion/bbr/windowed_filter.go:160-162 | All three estimates become the zero value |
| WindowedFilters.WindowedFilter.GetBest | internal/congestion/bbr/windowed_filter.go:88-90 | Is the sample of the best estimate |
| Common.BandwidthIsWholeBytes | internal/congestion/bbr/bandwidth.go:25-27 | With uint64 wrap-around modelled, every rate is a multiple of 8 and never the infinite rate |
| AckHeights.ZeroExtraMeansNewEpoch | internal/congestion/bbr/bandwidth_sampler.go:166-207 | With a threshold of at least 1, an event that acks bytes reports zero extra bytes exactly when it starts a new epoch, and counts it, also where the expected bytes wrap around to a negative number |
| AckEpochs.EpochIsExact | internal/congestion/bbr/bandwidth_sampler.go:166-207 | On every log of ack events the tracker knows the time, bytes and last packet of the epoch under way, and reports the bytes acked in it beyond those expected, or 0 at its beginning; epochs are defined on the log alone |
| AckEpochs.ExpectedIsProduct | internal/congestion/bbr/bandwidth_sampler.go:867-870 | Short of overflow, the expected bytes are the bits of the bandwidth over the nanoseconds of the epoch, in whole bytes |
| AckEpochs.HeightsAreReplay | internal/congestion/bbr/bandwidth_sampler.go:196-207 | On every log, without reduction on bandwidth increases, the filter holds the replay of one height for each event inside an epoch, with the expected bytes where the excess is documented |
| AckEpochs.ReducedIsMaximum | internal/congestion/bbr/bandwidth_sampler.go:141-164 | When heights are recomputed for a higher bandwidth, the best becomes the largest excess of the recorded ones over it, or 0 |
| AckEpochs.RoundsAreZero | internal/congestion/bbr/bandwidth_sampler.go:201-206 | No recorded height carries a round, as that result needs |
| AckHeights.MaxAckHeightTracker.Update | internal/congestion/bbr/bandwidth_sampler.go:130-208 | The in-place update, including the re-insertion of heights, computes the tracker function |
| SamplerProofs.ChoiceIsLatestBelow | internal/congestion/bbr/bandwidth_sampler.go:732-759 | On sorted candidates the chosen A0 point is the latest not above the target, or the oldest if there is none |
| SamplerProofs.PruningIsHarmless | internal/congestion/bbr/bandwidth_sampler.go:742-758 | Both kinds of pruning, including the loop that pops only half, leave the answer unchanged for every later target at least as large, whatever is appended |
| SamplerChoices.ChoicesIgnorePruning | internal/congestion/bbr/bandwidth_sampler.go:732-759 | On every run whose targets do not fall between restarts, every chosen A0 point is the latest not above its target, or the oldest if there is none, among all candidates saved since the last restart |
| SamplerChoices.AlwaysHarmless | internal/congestion/bbr/bandwidth_sampler.go:732-759 | On every such run the kept candidates are all saved ones but a prefix that ends before a point not above the latest target |
| SamplerChoices.FallingTargetsMatter | internal/congestion/bbr/bandwidth_sampler.go:742-758 | With a falling target pruning does change the answer |
| Samplers.BandwidthSampler.ChooseA0Point | internal/congestion/bbr/bandwidth_sampler.go:732-759 | The loops return that choice and leave that pruning; no candidates means no choice |
| SamplerProofs.AlwaysInv | internal/congestion/bbr/bandwidth_sampler.go:553-858 | On every run: snapshots never run ahead of the totals or of time, app-limited phases mark every packet beyond their end, A0 candidates stay sorted, the threshold stays at least 1 |
| SamplerProofs.StepKeepsInv | internal/congestion/bbr/bandwidth_sampler.go:553-858 | Every single step keeps that invariant |
| SamplerProofs.PhaseEndsOnMarkedPacket | internal/congestion/bbr/bandwidth_sampler.go:778-788 | On every run the ack that ends an app-limited phase is for a packet that is itself marked app-limited |
| SamplerProofs.SlopesAreDefined | internal/congestion/bbr/bandwidth_sampler.go:797-820 | In every reachable state both slopes of a sample have nonnegative parts, the ack slope counts at least the acked packet, and without overestimate avoidance it spans at least one round trip |
| SamplerProofs.SamplesAreWholeBytes | internal/congestion/bbr/bandwidth_sampler.go:797-830 | Every sample is a multiple of 8 and finite |
| SamplerProofs.SampleIsBelowBothSlopes | internal/congestion/bbr/bandwidth_sampler.go:797-822 | In every reachable state a sample exceeds neither the send slope nor the ack slope, even where the products of the source wrap around |
| SamplerProofs.SampleIsLowerSlope | internal/congestion/bbr/bandwidth_sampler.go:797-822 | Short of overflow, a valid sample is the lower of its two slopes in whole bytes per second, the send slope only if it spans some time |
| SamplerProofs.SampleIsRoundTrip | internal/congestion/bbr/bandwidth_sampler.go:761-831 | A valid sample is that of a tracked packet, with its send state, and its RTT is the time since the packet was sent; it is valid exactly if there is a send slope to start from and the ack slope spans some time |
| SamplerProofs.BytesAreConserved | internal/congestion/bbr/bandwidth_sampler.go:553-702 | On every run that reports each packet at most once: bytes sent are bytes acked, lost and neutered plus the bytes of exactly the packets not counted yet |
| SamplerProofs.EpochsSaveCandidates | internal/congestion/bbr/bandwidth_sampler.go:833-858 | Under overestimate avoidance an A0 candidate is saved exactly when an aggregation epoch starts |
| SamplerProofs.EventSampleIsExtremal | internal/congestion/bbr/bandwidth_sampler.go:625-647 | The event's bandwidth is the maximum and its RTT the minimum over the valid samples of its acked packets, both attained, the bandwidth with the matching app-limited mark |
| SamplerProofs.EventRatesAreExtremal | internal/congestion/bbr/bandwidth_sampler.go:625-660 | The event's send rate and in-flight bytes are the maxima over the valid samples, both attained |
| SamplerEvents.EventReportsLargest | internal/congestion/bbr/bandwidth_sampler.go:648-670 | An event reports the send state of its largest packet: of its last acked packet with a sample or its last tracked lost one, by number if there are both |
| SamplerEvents.LastLostIsLastTracked | internal/congestion/bbr/bandwidth_sampler.go:604-615 | Among lost packets the state is that of the last tracked one |
| SamplerEvents.LastAckedIsLastSample | internal/congestion/bbr/bandwidth_sampler.go:625-647 | Among acked packets the state is that of the last one that yields a sample |
| SamplerEvents.PhaseIsExact | internal/congestion/bbr/bandwidth_sampler.go:690-693 | On every run of the sampler it is in an app-limited phase exactly from each OnAppLimited to the first ack of a tracked packet sent after it |
| SamplerEvents.RecentPointsAreLatest | internal/congestion/bbr/bandwidth_sampler.go:253-279 | After every stream of ack points the newer one is the last and the older one the latest at an earlier time |
| SamplerEvents.RecentIsReplay | internal/congestion/bbr/bandwidth_sampler.go:765-776 | On every run, under overestimate avoidance, the recent ack points are those of the acks of tracked packets since the last restart |
| SamplerEvents.EventReportsSamples | internal/congestion/bbr/bandwidth_sampler.go:597-674 | Beside that, an event reports exactly what its acked packets amount to |
| SamplerProofs.EventIsSteps | internal/congestion/bbr/bandwidth_sampler.go:597-674 | A congestion event is one step for each lost and acked packet and one for its end, every one of them allowed at its state; the end is told the best bandwidth so far, up to the bound, whether it is new, and the round |
| SamplerProofs.EventIsBalanced | internal/congestion/bbr/bandwidth_sampler.go:597-674 | A congestion event that reports new packets keeps the byte accounts: it counts the lost packets and exactly the acked ones that are tracked |
| SamplerProofs.EventMovesClock | internal/congestion/bbr/bandwidth_sampler.go:597-674 | The clock of the latest ack never runs backwards over an event, and an event with an RTT sets it to its own time |
| SamplerProofs.EventKeepsInv | internal/congestion/bbr/bandwidth_sampler.go:597-674 | A whole event keeps the invariant, never lowers a total, and reports a whole, finite bandwidth and a nonnegative RTT |
| Samplers.BandwidthSampler.constructor | internal/congestion/bbr/bandwidth_sampler.go:498-510 | Over an empty queue, ring and tracker, stands for the initial sampler from which all runs start |
| Samplers.BandwidthSampler.OnPacketSent | internal/congestion/bbr/bandwidth_sampler.go:553-595 | Over the packet queue, computes the sending step on the map of tracked packets |
| Samplers.BandwidthSampler.OnPacketLost | internal/congestion/bbr/bandwidth_sampler.go:676-682 | Adds the lost bytes and returns the packet's send state if it is tracked |
| Samplers.BandwidthSampler.OnPacketNeutered | internal/congestion/bbr/bandwidth_sampler.go:684-688 | Forgets a tracked packet and counts its size as neutered |
| Samplers.BandwidthSampler.OnAppLimited | internal/congestion/bbr/bandwidth_sampler.go:690-693 | Starts or prolongs an app-limited phase |
| Samplers.BandwidthSampler.RemoveObsoletePackets | internal/congestion/bbr/bandwidth_sampler.go:695-702 | Keeps exactly the tracked packets at or above the given number |
| Samplers.BandwidthSampler.EnableOverestimateAvoidance | internal/congestion/bbr/bandwidth_sampler.go:540-547 | Switches the option on once and raises the threshold to 2 |
| Samplers.BandwidthSampler.OnPacketAcknowledged | internal/congestion/bbr/bandwidth_sampler.go:761-831 | Over queue and ring, is the acknowledgement step and the sample of the run theorems |
| Samplers.BandwidthSampler.OnAckEventEnd | internal/congestion/bbr/bandwidth_sampler.go:833-858 | Feeds the tracker and saves a candidate at the start of an epoch |
| Samplers.BandwidthSampler.OnCongestionEvent | internal/congestion/bbr/bandwidth_sampler.go:597-674 | The two loops and the end of the event give the event whose steps EventIsSteps names |
| BbrProofs.AlwaysInv | internal/congestion/bbr/bbr_sender.go:401-501 | In every state of every run: gains follow from mode and cycle offset, DRAIN and PROBE_BW imply full bandwidth and STARTUP its negation, recovery implies full bandwidth, windows are in range, bandwidths are multiples of 8, and the sampler's invariant holds |
| BbrProofs.StepKeepsInv | internal/congestion/bbr/bbr_sender.go:401-501 | Every call keeps that invariant |
| BbrProofs.WindowIsAlwaysBounded | internal/congestion/bbr/bbr_sender.go:384-395 | In every reachable state the reported window is between the minimum and the maximum window, and the window is at most the initial window plus all bytes acked |
| BbrProofs.ReportedWindowIsBounded | internal/congestion/bbr/bbr_sender.go:384-395 | In PROBE_RTT, in recovery and otherwise, the reported window is in range |
| BbrProofs.ModesStayOk | internal/congestion/bbr/bbr_sender.go:604-627 | Through gain cycle, STARTUP and DRAIN exits and PROBE_RTT, the mode machine keeps gains and full bandwidth consistent |
| BbrProofs.FullStaysOk | internal/congestion/bbr/bbr_sender.go:677-698 | The full-bandwidth check keeps its counters in range and never withdraws the flag |
| BbrProofs.RecoveryStaysOk | internal/congestion/bbr/bbr_sender.go:770-803 | The 0 written on entering recovery never survives the event; the recovery window ends at least at the minimum and at the bytes in flight plus the bytes acked |
| BbrProofs.WindowStaysOk | internal/congestion/bbr/bbr_sender.go:846-876 | The new window is in range, at most the initial window plus all acked bytes, and never falls before full bandwidth; BbrWindows.StepOnWindow says what it is |
| BbrRuns.FullBandwidthIsForever | internal/congestion/bbr/bbr_sender.go:677-724 | Once reached, full bandwidth is never given up and STARTUP never entered again |
| BbrRuns.GrowthUntilFull | internal/congestion/bbr/bbr_sender.go:806-876 | Until full bandwidth is reached, window and pacing rate never fall from one state to any later one |
| BbrRuns.StepOnRounds | internal/congestion/bbr/bbr_sender.go:631-638 | The round end moves only at a round start, to the last sent packet, or on entering recovery; the marks never fall |
| BbrRuns.RoundsNeedNewerAcks | internal/congestion/bbr/bbr_sender.go:631-638 | Of two events that increment the round count, the later one acks a packet sent after the earlier one |
| BbrRuns.StepOnRecovery | internal/congestion/bbr/bbr_sender.go:770-803 | States which transitions of the recovery machine exist and what each needs; BbrRuns.RecoveryStepIsExact says when they happen |
| BbrRuns.RecoveryStepIsExact | internal/congestion/bbr/bbr_sender.go:770-803 | Every transition of the recovery machine happens exactly under its condition, and the end mark moves exactly with ack-carrying losses at full bandwidth |
| BbrRuns.RecoveryBeginsExactly | internal/congestion/bbr/bbr_sender.go:776-786 | On every run recovery begins exactly with an ack-carrying event with losses at full bandwidth, in CONSERVATION |
| BbrRuns.GrowthBeginsExactly | internal/congestion/bbr/bbr_sender.go:788-798 | On every run CONSERVATION turns into GROWTH exactly with the ack of a packet sent after recovery began, unless recovery ends there |
| BbrRuns.RecoveryEndsExactly | internal/congestion/bbr/bbr_sender.go:787-802 | On every run recovery ends exactly with the first loss-free event that acks a packet sent after the latest ack-carrying event with losses |
| BbrRuns.EndMarkIsLatestLoss | internal/congestion/bbr/bbr_sender.go:774-786 | In recovery the end mark is the last packet sent before that event |
| BbrRuns.RoundEndIsExact | internal/congestion/bbr/bbr_sender.go:631-638 | On every run the round under way ends with the last packet sent before the latest event that started a round or began recovery |
| BbrRuns.GrowthNeedsNewerAck | internal/congestion/bbr/bbr_sender.go:792-796 | CONSERVATION becomes GROWTH only on the ack of a packet sent after recovery began |
| BbrRuns.RecoveryEndsOnNewerAck | internal/congestion/bbr/bbr_sender.go:776-802 | On every run, recovery ends only on a loss-free event acking a packet sent after every earlier ack-carrying event with losses |
| BbrRuns.LossesMoveRecoveryEnd | internal/congestion/bbr/bbr_sender.go:770-803 | On every run, the end mark of a recovery covers every earlier ack-carrying event with losses, also those before full bandwidth |
| BbrRuns.RecoveryWindowCoversFlight | internal/congestion/bbr/bbr_sender.go:879-908 | On every run, an event that ends in recovery leaves a recovery window that covers the bytes in flight and the bytes acked |
| BbrRuns.DuringProbeRtt | internal/congestion/bbr/bbr_sender.go:727-766 | During a stay the exit time is that of the first low-in-flight event plus 200 ms, a passed round started after it, and the window is untouched |
| BbrRuns.ProbeRttEndsInTime | internal/congestion/bbr/bbr_sender.go:727-766 | A PROBE_RTT stay ends no earlier than 200 ms after in-flight first was low in it and after a later round start, with the window unchanged until then |
| BbrRuns.ProbeRttEndsExactly | internal/congestion/bbr/bbr_sender.go:727-766 | On every run a stay ends exactly with the first event at least 200 ms after in-flight first was low and at or after a later round start, in PROBE_BW at full bandwidth and in STARTUP otherwise |
| BbrRuns.CheckUsesUpRound | internal/congestion/bbr/bbr_sender.go:677-698 | Each round that counts strictly lowers the bound on the rounds left, or reaches full bandwidth; it needs that bandwidths are multiples of 8 |
| BbrRuns.ChecksAreLimited | internal/congestion/bbr/bbr_sender.go:465-467 | On every run, rounds checked so far plus rounds left never exceed the bound |
| BbrRuns.StartupEnds | internal/congestion/bbr/bbr_sender.go:465-467 | STARTUP ends: after three counted rounds for each quarter by which a bounded bandwidth can still grow, full bandwidth is reached |
| BbrModes.DrainIsOneStretch | internal/congestion/bbr/bbr_sender.go:714-724 | On every run DRAIN is one uninterrupted stretch, and no event inside it finds the bytes in flight within the bandwidth-delay product |
| BbrModes.QueueIsDrainedBeforeProbing | internal/congestion/bbr/bbr_sender.go:714-766 | On every run, between STARTUP and PROBE_BW some event finds the queue drained or a whole PROBE_RTT stay ends |
| BbrModes.DrainingFollowsProbing | internal/congestion/bbr/bbr_sender.go:612-673 | On every run the 0.75 phase follows directly on the 1.25 phase |
| BbrModes.PhaseEndsWhenOver | internal/congestion/bbr/bbr_sender.go:641-673 | On every run a phase of the gain cycle ends with the first event that finds it over, measured from the event that began it: after a minimum RTT, in the 1.25 phase with the target reached or losses, in the 0.75 phase also once the queue is drained; the next phase follows |
| BbrModes.EveryOtherPhaseIsDrawn | internal/congestion/bbr/bbr_sender.go:612-627 | Each phase other than the 0.75 phase belongs to exactly one of the seven residues of the random draw |
| BbrModes.ProbeRttIsEnteredWhenStale | internal/congestion/bbr/bbr_sender.go:592-601 | On every run PROBE_RTT is entered exactly by an event with an RTT, more than ten seconds after the minimum was taken or last prolonged, and not after a send out of quiescence |
| BbrModes.ProbeRttStaysAreApart | internal/congestion/bbr/bbr_sender.go:727-766 | More than ten seconds lie between the end of one PROBE_RTT stay and the beginning of the next |
| BbrPath.MinRttIsRecentMinimum | internal/congestion/bbr/bbr_sender.go:592-601 | On every run the minimum RTT is the exact minimum of the RTTs back to the first or the last expiry; no RTT comes more than ten seconds after it was taken or after the latest end of a PROBE_RTT stay |
| BbrPath.StepOnMinRtt | internal/congestion/bbr/bbr_sender.go:745-760 | The end of a PROBE_RTT stay, and nothing else, renews the timestamp of a minimum that is kept |
| BbrPath.FilterIsReplay | internal/congestion/bbr/bbr_sender.go:436-444 | On every run the bandwidth filter holds the replay of all samples fed so far, which come in the order of their rounds |
| BbrPath.EstimateIsRecentMaximum | internal/congestion/bbr/bbr_sender.go:436-444 | On every run the bandwidth estimate is the exact maximum of the samples fed since some point, fed at most ten rounds before the last one |
| BbrPath.FeedingKeepsFresh | internal/congestion/bbr/bbr_sender.go:436-444 | Every sample fed keeps the estimates that are within ten rounds, moves them up when the best has expired, and renews the stale ones |
| BbrPath.EstimateHoldsForTenRounds | internal/congestion/bbr/bbr_sender.go:436-444 | On every run the bandwidth estimate is not lowered before more than ten rounds have passed since it was fed |
| BbrPath.AppLimitedSamplesOnlyRaise | internal/congestion/bbr/bbr_sender.go:436-444 | Over any stretch of a run that feeds only app-limited samples the bandwidth estimate does not fall |
| BbrPacing.PacerNeverStalls | internal/congestion/bbr/bbr_sender.go:546-555 | On every run, whenever there is no budget for a datagram of the size that HasPacingBudget asks for, the alarm is still to ring, if the arithmetic of the pacer is in range and the initial datagram is no larger than the pacer assumes or its size has been set since |
| BbrPacing.LargerDatagramStalls | internal/congestion/bbr/bbr_sender.go:307-314 | With a larger initial datagram, for every such configuration, a burst of packets of at most a datagram each, every one sent within the pacing budget, ends with neither a budget nor an alarm to wait for |
| BbrPacing.StallFreeExactly | internal/congestion/bbr/bbr_sender.go:307-314 | The configurations of which no run stalls are exactly those whose initial datagram is no larger than the pacer assumes |
| BbrPacing.PacerRateIsScaled | internal/congestion/bbr/bbr_sender.go:546-555 | The pacer's rate is the gain times the estimate in whole bytes, but at least 64 kB/s |
| BbrPacing.PacerFollowsEstimate | internal/congestion/bbr/bbr_sender.go:317-334 | On every run the pacer's rate is twice the bandwidth estimate, but at least 64 kB/s, each send takes its size from the budget at that rate, and nothing else but a new datagram size changes the pacer |
| BbrPacing.StepOnPacing | internal/congestion/bbr/bbr_sender.go:806-843 | The pacing rate after an event is the gain of the mode times the estimate at full bandwidth, never below that before, and first the initial window over the minimum RTT; without an estimate it is kept |
| BbrPacing.PacingFollowsEstimate | internal/congestion/bbr/bbr_sender.go:806-843 | On every run, after every event at full bandwidth the pacing rate is the gain of the mode and phase times the estimate |
| BbrSampling.SenderRunsSampler | internal/congestion/bbr/bbr_sender.go:401-501 | Inside every run of the sender there is an admissible run of the sampler with the same states, so every theorem about sampler runs applies |
| BbrSampling.SamplesAreSound | internal/congestion/bbr/bbr_sender.go:430-431 | On every run of the sender, every acked packet, taken after maybeApplimited, the losses and the earlier acks of its event, yields nonnegative numerators and denominators, positive ones whenever a rate is computed, and ends an app-limited phase only if it is marked |
| BbrSamples.TrackedIsAsSent | internal/congestion/bbr/bandwidth_sampler.go:553-595 | On every run every tracked packet carries the time, size and totals of its own sending call |
| BbrSamples.EventRttIsRoundTrip | internal/congestion/bbr/bbr_sender.go:446-448 | On every run an event's RTT is its time minus the time at which one of its acked packets was sent, and no other acked packet with a sample has a shorter round trip |
| BbrSamples.ReferenceIsExact | internal/congestion/bbr/bandwidth_sampler.go:574-587 | On every run slopes are measured from the last tracked packet acked, or from one sent later with nothing in flight, as the calls alone define it |
| BbrSamples.SendSlopeIsBetweenSends | internal/congestion/bbr/bandwidth_sampler.go:797-815 | On every run the send slope of a packet spans exactly the bytes sent after its reference packet up to and including itself, over the time between the two sends; its ack slope starts from what was acked when it was sent |
| BbrSampling.TrackedExactly | internal/congestion/bbr/bbr_sender.go:483-495 | On every run a packet is tracked exactly when a call sent it as retransmittable and no later event had a least-unacked estimate above it |
| BbrSampling.LateAcksCountNothing | internal/congestion/bbr/bbr_sender.go:483-495 | On every run the ack of a sent packet counts nothing exactly if an event in between acked a packet more than two above it, or reported only losses up to it or above |
| BbrSampling.BytesAreConserved | internal/congestion/bbr/bbr_sender.go:401-501 | On every run of the sender that reports each packet at most once, bytes sent are bytes acked and lost plus the bytes of exactly the packets not counted yet; which packets count is stated on the calls alone |
| BbrWindows.RecoveryConservesPackets | internal/congestion/bbr/bbr_sender.go:879-908 | The room that recovery leaves is exact: CONSERVATION adds one byte for each byte acked, GROWTH two, as the comments at lines 87-91 promise; at least the acked bytes may be sent, and what the minimum window allows |
| BbrWindows.RecoveryStartsFromFlight | internal/congestion/bbr/bbr_sender.go:879-908 | On every run recovery begins with a window of the bytes in flight plus the bytes acked, but at least the minimum |
| BbrWindows.HeavyLossesLeaveOneDatagram | internal/congestion/bbr/bbr_sender.go:888-896 | An event that loses more than the recovery window leaves a datagram of it |
| BbrWindows.TargetIsScaledBdp | internal/congestion/bbr/bbr_sender.go:575-585 | The target window is the minimum, the scaled initial window, or at most the gain times the bandwidth-delay product, also where the product wraps |
| BbrWindows.TargetIsExact | internal/congestion/bbr/bbr_sender.go:575-585 | Where the product fits an int64, the target is the gain times the bandwidth-delay product in whole bytes, or times the initial window only while that is less than a byte, and at least the minimum |
| BbrFacts.EventTargetIsExact | internal/congestion/bbr/bbr_sender.go:558-585 | Every target of an event uses the estimate after the event and the sender's minimum RTT, or that of the statistics, or 100 ms |
| BbrWindows.StepOnWindow | internal/congestion/bbr/bbr_sender.go:846-876 | What each event makes of the window in PROBE_RTT, before full bandwidth and at full bandwidth, exactly |
| BbrWindows.WindowGrowsByAcked | internal/congestion/bbr/bbr_sender.go:866-871 | Over any stretch of a run before full bandwidth in which the window is below its target, or not even the initial window is acked, it grows by exactly the bytes acked |
| BbrWindows.FirstWindowGrows | internal/congestion/bbr/bbr_sender.go:866-871 | Until the initial window is acked, before full bandwidth and outside PROBE_RTT, the window is the initial window plus all bytes acked, up to the maximum |
| BbrFacts.LossesAreExact | internal/congestion/bbr/bbr_sender.go:454-457 | On every run the loss counters hold the loss events of the round under way and the bytes they lost |
| BbrFacts.StepOnLosses | internal/congestion/bbr/bbr_sender.go:413-422 | After an event the bytes in flight are those before it minus all acked and lost |
| BbrFacts.StepOnCheck | internal/congestion/bbr/bbr_sender.go:677-698 | The full-bandwidth check, exactly: which rounds count, what is a gain of a quarter, and that the third round without one, or eight loss events with more than 2% lost, mean full bandwidth |
| BbrFacts.LimitsAreExact | internal/congestion/bbr/bbr_sender.go:432-435 | On every run the sender knows whether its latest sample was app-limited and whether any was not |
| BbrFacts.IdleIsExact | internal/congestion/bbr/bbr_sender.go:700-710 | When the sender takes itself for app-limited, in terms of the window and the bytes in flight |
| BbrFacts.PhaseIsExact | internal/congestion/bbr/bbr_sender.go:700-766 | On every run of the sender the sampler is in an app-limited phase exactly from events that find the sender idle or in PROBE_RTT to the ack of a tracked packet sent later |
| BbrFacts.TrackerIsFed | internal/congestion/bbr/bbr_sender.go:430-431 | On every run the ack-height tracker is fed one event for each congestion event that acks tracked bytes, with the best bandwidth so far and the round after the event |
| BbrWindows.WindowMovesToTarget | internal/congestion/bbr/bbr_sender.go:861-875 | At full bandwidth and with a fixed target, any sequence of acks moves the window to the target by exactly the bytes acked |
| BbrSenders.BbrSender.constructor | internal/congestion/bbr/bbr_sender.go:255-300 | Stands for the initial sender from which all runs start, with the window gain of 2 set at the end |
| BbrSenders.BbrSender.OnPacketSent | internal/congestion/bbr/bbr_sender.go:317-334 | Pacer, sender and sampler together make the sending step of the runs |
| BbrSenders.BbrSender.SetMaxDatagramSize | internal/congestion/bbr/bbr_sender.go:362-372 | Changes the datagram sizes and leaves the window alone |
| BbrSenders.BbrSender.GetCongestionWindow | internal/congestion/bbr/bbr_sender.go:385-395 | Between calls, reports a window between the minimum and the maximum |
| BbrSenders.BbrSender.HasPacingBudget | internal/congestion/bbr/bbr_sender.go:312-314 | Compares the pacer's budget with the sender's datagram size, as the stall theorems do |
| BbrSenders.BbrSender.TimeUntilSend | internal/congestion/bbr/bbr_sender.go:307-309 | Is the alarm of the stall theorems |
| BbrSenders.BbrSender.OnCongestionEventEx | internal/congestion/bbr/bbr_sender.go:401-501 | The calls in the source's order compute the whole event on all fields |
| BbrSenders.BbrSender.Handle | internal/congestion/bbr/bbr_sender.go:401-501 | Every call moves the object exactly as the runs do and keeps their invariant |
| Cubic.CubeRoot | internal/congestion/cubic/cubic.go:163 | The integer cube root: its cube does not exceed the argument and the next one does |
| Cubic.LossBacksOff | internal/congestion/cubic/cubic.go:129-139 | A loss leaves exactly the share that n emulated connections keep, (n - 0.3)/n of the window rounded down, and a remembered maximum that is the window or, if that had not been regained, (n - 0.15)/n of it (section 4.6 of RFC 8312) |
| Cubic.OneConnectionKeeps70Percent | internal/congestion/cubic/cubic.go:129-139 | For one connection that is 0.7 of the window |
| Cubic.CurveReturnsToMaximum | internal/congestion/cubic/cubic.go:159-186 | The epoch after a loss reaches exactly the remembered maximum at its origin point and, as long as the product does not wrap, not more before |
| Cubic.CurveMonotone | internal/congestion/cubic/cubic.go:173-186 | The fixed-point curve rises on both sides of its origin point, for all offsets below 26192 |
| Cubic.CurveIsCubic | internal/congestion/cubic/cubic.go:168-186 | Near the origin point the curve is 410 * 1252 / 2^40 times the cube of the offset away from the origin window, rounded down, on both sides |
| Cubic.LimitIsExact | internal/congestion/cubic/cubic.go:180 | The int64 product of the curve is exact if and only if the offset from the origin point is below 26192, which is 25.58 s |
| Cubic.CurveFallsAtLimit | internal/congestion/cubic/cubic.go:180-186 | At that offset the curve of the code falls by more than 16 million bytes at once |
| Cubic.CurveStartsAtWindow | internal/congestion/cubic/cubic.go:159-186 | Despite two roundings the curve starts at or above the window and stays there until the product wraps beyond the origin point; a wrap before it only raises the curve |
| Cubic.ShortEpochsAreNear | internal/congestion/cubic/cubic.go:159-180 | The product does not wrap in the first 25.5 s of an epoch that starts at most 8 MB below the remembered maximum |
| Cubic.AckNeverShrinks | internal/congestion/cubic/cubic.go:145-207 | Within an epoch and across its start, with event time plus minimum RTT not running backwards and near the origin point, an ack never shrinks the window, never lowers the TCP estimate, and restores its own precondition |
| Cubic.AckShrinksExactlyWhenOutgrown | internal/congestion/cubic/cubic.go:145-207 | Whatever the clock does and wherever the product wraps: an ack shrinks the window if and only if, before the call, an epoch is under way and both its curve at that moment and the TCP estimate are below the window |
| Cubic.AckFollowsGrant | internal/congestion/cubic/cubic.go:145-207 | The window after an ack is the curve's grant, at most half the acked bytes above the old window, or the TCP estimate if that is larger |
| Cubic.TcpGrowthIsShare | internal/congestion/cubic/cubic.go:192-198 | The TCP estimate of one connection gains 9/17 of a datagram for every window's worth of acked bytes, rounded down |
| Cubic.CubicWindow.CongestionWindowAfterAck | internal/congestion/cubic/cubic.go:145-207 | The in-place computation, with its int64 product, is the function on states |
| Cubic.CubicWindow.CongestionWindowAfterPacketLoss | internal/congestion/cubic/cubic.go:129-139 | The in-place computation is the loss of those theorems |
| Cubic.CubicWindow.DoReset | internal/congestion/cubic/cubic.go:78-86 | Resets everything but the number of connections |
| Cubic.CubicWindow.OnApplicationLimited | internal/congestion/cubic/cubic.go:114-124 | Ends the epoch and changes nothing else |
| Cubic.CubicWindow.constructor | internal/congestion/cubic/cubic.go:68-75 | The reset state with one connection |
| CubicSenders.After | internal/congestion/cubic/cubic_sender.go:175-296 | In every state reachable by any calls, the window is at least two datagrams and below the maximum plus one datagram |
| CubicSenders.StepKeepsInv | internal/congestion/cubic/cubic_sender.go:175-296 | Every call keeps those bounds, for CUBIC and Reno |
| CubicSenders.CutbacksAreFlightsApart | internal/congestion/cubic/cubic_sender.go:191-213 | Absent timeouts and migrations, the loss that causes a cutback is of a packet sent after the previous cutback (section 3.2 of RFC 6582) |
| CubicSenders.CutbackIsExact | internal/congestion/cubic/cubic_sender.go:191-213 | On every run, in CUBIC and in Reno, a cutback leaves 0.7 of the window but at least two datagrams, so a larger window strictly falls; other losses change nothing |
| CubicSenders.LastSentIsOnCalls | internal/congestion/cubic/cubic_sender.go:135-148 | On every run the packet to which a cutback moves the mark is the last retransmittable one sent since the latest migration |
| CubicSenders.SlowStartGrowth | internal/congestion/cubic/cubic_sender.go:217-236 | On every run each ack that may grow the window in slow start adds one datagram |
| CubicSenders.RenoGrowth | internal/congestion/cubic/cubic_sender.go:237-245 | On every run a window's worth of acks in Reno's congestion avoidance adds one datagram, and no fewer do |
| CubicSenders.CubicGrowth | internal/congestion/cubic/cubic_sender.go:246-251 | On every run an ack in CUBIC takes the window to the curve, capped by half the acked bytes and the maximum, or to the TCP estimate |
| CubicSenders.OtherAcksKeepWindow | internal/congestion/cubic/cubic_sender.go:175-261 | On every run acks in recovery, below the limit of the window or at the maximum leave the window alone, and ending the epoch is for the second kind |
| CubicSenders.TimeoutIsExact | internal/congestion/cubic/cubic_sender.go:274-283 | On every run a timeout forgets the mark and, if it retransmits, leaves two datagrams, half the window as threshold and a fresh CUBIC state |
| CubicSenders.MigrationIsExact | internal/congestion/cubic/cubic_sender.go:286-296 | On every run a migration leaves a new sender, with the initial maximum window as threshold |
| CubicSenders.SlowStartCheckIsExact | internal/congestion/cubic/cubic_sender.go:166-173 | On every run the slow-start check ends slow start at the current window |
| CubicSenders.MarkHolds | internal/congestion/cubic/cubic_sender.go:191-213 | Between cutbacks the mark never falls below what was sent at the first |
| CubicSenders.AcksNeverShrink | internal/congestion/cubic/cubic_sender.go:175-251 | On every run whose clock does not run backwards within an epoch and whose acks that reach CUBIC are near the origin points of their epochs, no ack shrinks the window, in slow start, Reno and CUBIC |
| CubicSenders.AckShrinksExactlyWhenOutgrown | internal/congestion/cubic/cubic_sender.go:175-261 | On every run, whatever the clock does and wherever the product wraps: an ack shrinks the window if and only if it reaches CUBIC (out of recovery, window-limited, below the maximum, out of slow start, not Reno) with the window outgrown |
| CubicSenders.FallingDelayShrinks | internal/congestion/cubic/cubic_sender.go:217-261 | A concrete run of sends and acks in which a dropping minimum RTT makes the ack of one packet shrink the window from 40565 to 40104 |
| CubicSenders.LongEpochShrinks | internal/congestion/cubic/cubic_sender.go:217-261 | A concrete run with a forward clock and a constant minimum RTT in which an ack 25.6 s past the origin point does the same, because the product wraps |
| CubicSenders.AlwaysInEpoch | internal/congestion/cubic/cubic_sender.go:175-296 | On every such run the window during an epoch is granted by curve or TCP estimate and the sender is out of slow start |
| CubicSenders.CubicSender.constructor | internal/congestion/cubic/cubic_sender.go:86-116 | Stands for the initial sender from which all runs start |
| CubicSenders.CubicSender.OnPacketSent | internal/congestion/cubic/cubic_sender.go:135-148 | Is a sending step of the runs and stays within the window bounds |
| CubicSenders.CubicSender.MaybeExitSlowStart | internal/congestion/cubic/cubic_sender.go:166-173 | Is a slow-start check of the runs for any answer of HybridSlowStart and stays within the window bounds |
| CubicSenders.CubicSender.OnPacketAcked | internal/congestion/cubic/cubic_sender.go:175-189 | Is an ack of the runs and stays within the window bounds |
| CubicSenders.CubicSender.OnCongestionEvent | internal/congestion/cubic/cubic_sender.go:191-213 | Is a loss of the runs and stays within the window bounds |
| CubicSenders.CubicSender.OnRetransmissionTimeout | internal/congestion/cubic/cubic_sender.go:274-283 | Is a timeout of the runs and stays within the window bounds |
| CubicSenders.CubicSender.OnConnectionMigration | internal/congestion/cubic/cubic_sender.go:286-296 | Is a migration of the runs and stays within the window bounds |
| Pacing.Conformance | internal/congestion/common/pacer.go:31-57 | From any state and with any bandwidths up to a limit in range, consecutive in-budget sends carry at most one burst plus what the limit admits in their time span, also where the refill wraps |
| Pacing.BurstIsExact | internal/congestion/common/pacer.go:52-57 | A burst is what the bandwidth admits in the minimum delay and a millisecond, but at least ten datagrams |
| Pacing.BudgetIsRefill | internal/congestion/common/pacer.go:31-50 | Before the refill wraps, the budget is the old one plus what the bandwidth has admitted since, up to a burst, and a transmission takes its size from it down to 0 |
| Pacing.WakeUpSuffices | internal/congestion/common/pacer.go:61-70 | The alarm is set exactly when a datagram does not fit, no earlier than the minimum delay after the last transmission, and when it rings a datagram fits |
| Pacing.BudgetLasts | internal/congestion/common/pacer.go:41-70 | From the moment the alarm rings on, or at once if it was never set, a datagram fits, until the int64 product has wrapped beyond the reach of the guard against negative sums |
| Pacing.LongSilenceWraps | internal/congestion/common/pacer.go:45-48 | A concrete state in which that happens: at 125 MB/s, 147.57 s after the last transmission, the budget is 0 again |
| Pacing.WakeUpIsEarliest | internal/congestion/common/pacer.go:61-70 | Unless the minimum delay dominates, the budget covers a datagram exactly from that nanosecond on, as long as the guard holds |
| Pacing.Pacer.SentPacket | internal/congestion/common/pacer.go:31-39 | Is the transmission of the conformance theorem |
| Pacing.Pacer.GetBudget | internal/congestion/common/pacer.go:41-57 | Is the budget of the conformance theorem, with both int64 products |
| Pacing.Pacer.GetTimeUntilSend | internal/congestion/common/pacer.go:61-70 | Is the alarm of the wake-up theorems |
| Pacing.Pacer.constructor | internal/congestion/common/pacer.go:22-29 | A pacer starts with a full burst |
| Brutal.SlotsCountLastFiveSeconds | internal/congestion/brutal/brutal.go:123-132 | The five slots sum up exactly the events of the last five seconds, although the cutoff admits one second more |
| Brutal.RecordedReflects | internal/congestion/brutal/brutal.go:100-112 | Recording an event keeps every slot equal to the latest second of its residue |
| Brutal.RecordingCounts | internal/congestion/brutal/brutal.go:100-132 | After each event the slots reflect the whole log and sum up its last five seconds |
| Brutal.PacingIsBounded | internal/congestion/brutal/brutal.go:52-54 | The ack rate is in [0.8, 1] and the pacing rate in [bps, 1.25 bps] |
| Brutal.AckRateIsShare | internal/congestion/brutal/brutal.go:133-158 | Among at least 50 packets the ack rate is the share of those acked, but at least 0.8; below 50 it is 1 |
| Brutal.PacingMakesUpForLosses | internal/congestion/brutal/brutal.go:52-54 | What is sent at the pacing rate amounts, at the ack rate, to bps rounded down |
| Brutal.BrutalSender.constructor | internal/congestion/brutal/brutal.go:44-56 | Starts with empty slots and ack rate 1 |
| Brutal.BrutalSender.OnCongestionEventEx | internal/congestion/brutal/brutal.go:100-113 | After every event the ack rate is that of the last five seconds of the whole history |
| Brutal.BrutalSender.GetPacingRate | internal/congestion/brutal/brutal.go:52-54 | In every state of the object the pacing rate is between bps and 1.25 bps, and times the ack rate it is bps, rounded down |

## Left out

- client/, server/, common/, main.go: command line, TLS, sockets, HTTP, logging and export; plumbing without algorithms.
- internal/congestion/rl/: Redis messages around a one-line window update.
- HybridSlowStart, RTTStats and the cubic package's own pacer are not part of this model; their answers are inputs.
- int64 wrap-around is modelled in the products that can reach it (CUBIC's curve, the pacer's refill and burst, the bandwidth-delay product, the bytes expected in an epoch) and for uint64 bandwidths; sums of byte counts are exact, and so are floats.
- Pacing.Conformance: assumes that the burst product fits an int64 (below 4.6 * 10^12 bytes per second for a minimum delay of 1 ms) and that ten datagrams in nanosecond units do; the same holds of Pacing.WakeUpSuffices, Pacing.BudgetLasts, Pacing.WakeUpIsEarliest and BbrPacing.PacerNeverStalls.
- Pacing.BudgetLasts: says nothing beyond the reach of the guard, where Pacing.LongSilenceWraps shows that a datagram can stop fitting.
- BBR options that nothing switches on (overshoot detection, drain-to-target, ack aggregation in STARTUP and its expiry) are fixed to off; overestimate avoidance is modelled in the sampler.
- The numeric meaning of the tracked ack height, because the source stores the expected bytes there; window bounds do not depend on it.
- WindowedFilters.BestIsSuffixMaximum: times are unbounded integers, so the wrap-around of a uint64 round counter is not captured.
- CubicSenders.After: the datagram size is fixed; SetMaxDatagramSize of the CUBIC sender is not modelled.
- Plain getters and setters (PacingRate, CanSend, option setters, Brutal's congestion window) and debug printing: easy members.
- Pointers handed out by the ring buffer are modelled as reads and explicit writes of single elements.
