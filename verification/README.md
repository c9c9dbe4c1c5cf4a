# MoonGen: a verified model of its timing, shaping, measurement and allocation core

MoonGen is a packet generator and network emulator. This project models the parts of it that
are easiest to get wrong and proves what they promise over every input and every run.

| file | component |
|---|---|
| `CrcRateControl.dfy` | the rate limiter that fills gaps between packets with frames of invalid checksum |
| `LaunchTime.dfy` | the delay emulator: planning launch times in bytes on the wire, and its transmit loop |
| `Stages.dfy` | packet filters with state: bursts, and fusing two filters into one pass |
| `TokenBucket.dfy`, `LeakyBucket.dfy` | the two rate shapers of the emulator |
| `RateLaws.dfy` | which packets pass a shaper and when they leave, in whole bytes and clock ticks, without tokens |
| `LossModels.dfy` | the random generator and the uniform, Gilbert-Elliott and NetEm loss models |
| `ShaperLoops.dfy` | the receiver loops on hardware time stamps: delay or a shaper, then a loss model |
| `HardwarePaths.dfy` | whole hardware paths: a receiver loop, the ring of a launch timer and its transmit loop |
| `DelayRing.dfy` | the ring between any software receiver and its transmitter |
| `SoftwareLoops.dfy` | the software receiver loops, and whole emulated paths of receiver, ring and transmitter |
| `OnlineStats.dfy` | the histogram and its running mean and variance |
| `LiveTable.dfy` | the live latency table of the sniffer |
| `RateSearch.dfy` | the throughput search of section 26.1 of RFC 2544 |
| `QueueAllocator.dfy` | the device manager and the four thread kinds that take queues from it |
| `Sequences.dfy`, `Integers.dfy`, `Reals.dfy` | small shared facts |

`dafny verify dfyconfig.toml` checks everything.

## How the model reads the code

- Loops and objects are classes and methods that update fields and arrays, each proved equal to a
  specification function. The theorems are about those functions and about whole runs of them.
- Doubles are exact reals; a cast of a double to an integer is a floor (truncation in `FetchStats`).
- Integers are unbounded, except in the generator and the loss models, which work modulo 2^64.
- Input and clocks are parameters: the received bursts, the hardware timestamp, the answers of the
  device under test. What is handed to a device is recorded as a sequence. The endless loops are
  modelled over any finite number of rounds.
- Positions on the wire are bytes since the timestamped packet, on a line that is kept busy. The
  rate limiter and the delay emulator use the same overhead (lua/launch-timestamp.lua:35).
- A packet of the delay emulator carries two history fields, its launch time and whether it was
  judged late. No branch reads them; they let the theorems speak of a packet after its stamp has
  been overwritten by a gap.
- The theorems on shapers and losses hold for any output function of the generator; the one in the code
  is `LossModels.Mix`.

## What the code does not promise

- When the last packet of a batch is dropped as too late, the frames still in the transmit buffer
  are never sent, although the byte offset counts them. `RunLosslessIff` and `RunDeliversIff` say
  exactly which runs lose nothing, in terms of launch times; `PairIsLost` gives two packets that
  are enough to lose one, and `LossyRun` a losing run for every line. The accuracy theorems are
  stated for every run with the lost bytes as a parameter, and then for the runs without loss.
- Filler sizes wrap around, or the fill loop does not end, for some configured sizes: `SaneIff` gives
  the exact condition, `WrapWitness` a failing gap for all other sizes.
- Gaps are filled exactly only for some sizes: `FillsExactlyIffSizesFit` gives the condition,
  `FillWitness` a failing gap for all other sizes.
- Calling the loss stage without a loss model neither keeps nor frees the packets
  (`AppliedPartitionsIff`); the receiver loops do not call it in that case.
- The latency table agrees with a map from whole identifiers only for identifiers that differ in
  the low 24 bits and timestamps other than zero (`AgreesIff`, `ZeroDiffers`, `CollisionDiffers`).
- Latencies below the threshold, which the sniffer reports as ignored, and negative samples of the
  histogram still enter the statistics (src/moonsniff.cpp:90-106, src/histogram.cpp:31-55).
- The configuration declares five parameters (src/moonem_common.h:19) while the NetEm step reads
  eight and examples/moonem.lua fills eight; the model has eight.
- A pass at the upper limit need not be a pass at the maximum: a rate that failed can be tried
  again. `TopIsMaximumIff` says for which thresholds and maxima that cannot happen, whatever the
  device answers; for all others `RetriedBelowMaximum` is a search of the code in which it does.
- The exit at rfc2544/utils/utils.lua:181 compares with a global that is never set, not with the
  object's lower limit, so it never fires; `Next` has no such exit.

## Model

| member | source | states |
|---|---|---|
| CrcRateControl.FillerWire | src/crc-ratecontrol.cpp:54-64 | for sane sizes a filler never overshoots the gap, never exceeds the largest size and always has room for its overhead |
| CrcRateControl.RawIsFillerWire | src/crc-ratecontrol.cpp:54-64 | for sane sizes the unsigned 64-bit computation of the code does not wrap and chooses the same filler |
| CrcRateControl.SaneIff | src/crc-ratecontrol.cpp:54-68 | sizes are sane if and only if every filler the unsigned computation chooses is sound, over all gaps, for sizes well below 2^62 |
| CrcRateControl.WrapWitness | src/crc-ratecontrol.cpp:54-68 | for all other sizes, a gap whose filler makes no progress, exceeds the largest size or has a length that wraps around |
| CrcRateControl.FillersConserve | src/crc-ratecontrol.cpp:25-37 | for every gap, the filler sizes and the remainder add up to the gap; nothing is lost to rounding |
| CrcRateControl.FillersExact | src/crc-ratecontrol.cpp:25-37 | when the sizes fit, every gap of at least the minimum becomes exactly ceil(gap / size) fillers of legal size with no remainder |
| CrcRateControl.FillersMinimal | src/crc-ratecontrol.cpp:54-64 | no other way to cut the gap into frames of at most the largest size uses fewer frames |
| CrcRateControl.FillsExactlyIffSizesFit | src/crc-ratecontrol.cpp:54-64 | all fillable gaps are filled exactly if and only if the sizes meet an arithmetic condition |
| CrcRateControl.FillWitness | src/crc-ratecontrol.cpp:54-64 | for all sizes outside the condition, a gap that leaves a remainder or an illegal filler |
| CrcRateControl.FillerBytes | src/crc-ratecontrol.cpp:25-37 | the frames built for a gap occupy the gap minus the remainder on the wire |
| CrcRateControl.CarryBound | src/crc-ratecontrol.cpp:22-40 | the unsent remainder carried between packets stays below the minimum frame, over any batch |
| CrcRateControl.ExpandConserves | src/crc-ratecontrol.cpp:15-47 | over any batch the real packets come out in order, and wire bytes plus carry-out equal requested gaps plus packets plus carry-in |
| CrcRateControl.HandedOverAllIff | src/crc-ratecontrol.cpp:41-46 | every frame built reaches the device if and only if the last slot is a packet or the number of frames is a multiple of 64 |
| CrcRateControl.IdleBytes | src/crc-ratecontrol.cpp:74-79 | the byte count of an idle run is the number of its frames times their wire size |
| CrcRateControl.RateLimiterCRC.constructor | src/crc-ratecontrol.cpp:93-95 | a new limiter has its three sizes, nothing carried over and nothing sent |
| CrcRateControl.RateLimiterCRC.SetInvalidPacketSize | src/crc-ratecontrol.cpp:89-91 | only the largest filler size changes |
| CrcRateControl.RateLimiterCRC.SendPackets | src/crc-ratecontrol.cpp:9-52 | the batches concatenate to fillers-then-packet for every slot in order, every batch but the last has exactly 64 frames and the last 1 to 64; bad bytes plus 20 per bad packet equal gaps plus carry-in minus carry-out |
| CrcRateControl.RateLimiterCRC.SendAll | src/crc-ratecontrol.cpp:15-47 | the loop over all slots meets the simple expansion, up to the frames left in the buffer |
| CrcRateControl.RateLimiterCRC.SendOne | src/crc-ratecontrol.cpp:22-46 | one slot adds its fillers and its packet to what was sent or buffered, and the counters account for the gap |
| CrcRateControl.RateLimiterCRC.FillGap | src/crc-ratecontrol.cpp:25-37 | the inner loop ends, builds the fillers of the gap across buffer flushes and leaves the remainder |
| CrcRateControl.RateLimiterCRC.Put | src/crc-ratecontrol.cpp:29-36 | storing a frame and flushing a full buffer keeps "sent then buffered" equal to all frames in order |
| CrcRateControl.RateLimiterCRC.GetDelayPacket | src/crc-ratecontrol.cpp:54-72 | the frame has the chosen wire size less the overhead |
| CrcRateControl.RateLimiterCRC.EmptyDelay | src/crc-ratecontrol.cpp:74-79 | one batch of equal fillers is sent and the returned count is its wire bytes |
| CrcRateControl.RateLimiterCRC.SendTimestampPacket | src/crc-ratecontrol.cpp:81-87 | as an idle run, with its first frame marked as the origin of time |
| LaunchTime.SendingTime | src/launch-timestamp.cpp:8-8 | the time of a byte position, rounded down |
| LaunchTime.JudgeBounds | src/launch-timestamp.cpp:8-27 | which of early, late and dropped applies, and that an early packet's gap ends within one byte of its launch time |
| LaunchTime.PlanStep | src/launch-timestamp.cpp:8-29 | planning one packet adds one slot and moves the offset by the slot's gap and wire size, or not at all for a drop |
| LaunchTime.PlanJudged | src/launch-timestamp.cpp:8-29 | what becomes of every packet of any batch, against the time at the position that the packets before it reached: dropped if more than 100000 ns late, sent without a gap if late, else with the gap that passes until its launch time, and by how much the position moves |
| LaunchTime.SentIff | src/launch-timestamp.cpp:8-18 | a packet of any batch is sent if and only if its launch time plus 100000 ns is at least that time, rounded down |
| LaunchTime.PlanKeepsPackets | src/launch-timestamp.cpp:5-30 | planning keeps identity, length and launch time of every packet that is not dropped |
| LaunchTime.PlanMatches | src/launch-timestamp.cpp:5-32 | the offset after planning a batch is the offset before plus the bytes the batch will occupy, with the change of carry |
| LaunchTime.RoundSynchronous | src/launch-timestamp.cpp:60-67 | any iteration of the transmit loop, idle or sending, keeps offset == wire bytes + carry + lost and the carry below the minimum frame |
| LaunchTime.RunSynchronous | src/launch-timestamp.cpp:45-68 | the same after every run: there is no drift, for any mix of idling, sending, lateness, drops and size switches |
| LaunchTime.PlanTimely | src/launch-timestamp.cpp:3-33 | every packet planned in a batch will start inside its window, from any reachable state |
| LaunchTime.RunAccurate | src/launch-timestamp.cpp:45-68 | in every run, every packet on the wire starts inside its window, widened below by the bytes lost so far |
| LaunchTime.FlushesIff | src/launch-timestamp.cpp:11-18 | a batch ends in a packet if and only if its last launch time is not too far in the past when its turn comes |
| LaunchTime.DispatchLosslessIff | src/crc-ratecontrol.cpp:19-46 | no byte of a batch is lost if its last slot is a packet or its frames fill the buffers exactly; otherwise the loss grows |
| LaunchTime.RunLosslessIff | src/launch-timestamp.cpp:56-68 | a run from any state loses no byte if and only if every round is empty, ends with a packet that is in time for its turn, or fills whole buffers; if not, with an overhead of at least one byte, bytes are lost |
| LaunchTime.LostTail | src/crc-ratecontrol.cpp:19-46 | a short batch whose last packet is dropped puts nothing on the wire, and all of its bytes are lost |
| LaunchTime.PairIsLost | src/launch-timestamp.cpp:11-32 | in every state, a packet due now followed by one that is too late is accepted, counted in the offset and never reaches the wire |
| LaunchTime.LossyRun | src/launch-timestamp.cpp:56-68 | for every line, batches whose run accepts a packet that never reaches the wire |
| LaunchTime.RoundDelivers | src/launch-timestamp.cpp:60-67 | of the packets a round accepts a prefix reaches the wire, and all of them if and only if the round is complete |
| LaunchTime.RunDeliversIff | src/launch-timestamp.cpp:56-68 | the wire carries exactly the packets not dropped, in order, if and only if every round of the run is complete |
| LaunchTime.InTimeAccepted | src/launch-timestamp.cpp:56-68 | in every run a packet that is at most 100000 ns late when its turn comes is accepted, behind exactly the packets accepted before it |
| LaunchTime.AcceptedInTime | src/launch-timestamp.cpp:3-33 | every packet that was accepted was in some batch with its launch time as stamp, and at most 100000 ns late |
| LaunchTime.AcceptedIff | src/launch-timestamp.cpp:56-68 | with distinct identifiers, a packet of a run is accepted if and only if it is at most 100000 ns late when its turn comes |
| LaunchTime.QuietMoves | src/launch-timestamp.cpp:36-67 | after calibration the position is 101 idle batches, and every round without packets adds one more, of 64 frames of 1500 bytes and their overhead |
| LaunchTime.SendingFills | src/launch-timestamp.cpp:62-63 | on a line whose minimum frame is at most 4500 bytes, every fillable gap before a packet becomes exactly ceil(gap / 9000) fillers |
| LaunchTime.LaunchTimeAccuracy | src/launch-timestamp.cpp:3-33 | in every complete run each packet starts later than its launch time minus one minimum frame, and before it plus 1 ns if judged on time or plus 100001 ns if late |
| LaunchTime.DelayEmulator.constructor | src/launch-timestamp.cpp:71-73 | the time per byte times the line rate is 8000 |
| LaunchTime.DelayEmulator.PlanPacket | src/launch-timestamp.cpp:8-29 | the offset and the slot become those of the plan extended by this packet: dropped beyond 100000 ns, no gap if late, else the gap until its launch time |
| LaunchTime.DelayEmulator.PlanBatch | src/launch-timestamp.cpp:5-30 | overwriting the array in place yields the plan of the packets it held, every packet judged as above by the position reached |
| LaunchTime.DelayEmulator.DispatchBatch | src/launch-timestamp.cpp:32-32 | the planned slots go to the rate limiter, and the abstract state moves by one dispatch |
| LaunchTime.DelayEmulator.SendBatch | src/launch-timestamp.cpp:3-33 | one non-empty round of the abstract machine, in which every packet is judged as above |
| LaunchTime.DelayEmulator.Idle | src/launch-timestamp.cpp:64-67 | one idle round: 64 fillers of 1500 bytes, counted with their overhead in the offset |
| LaunchTime.DelayEmulator.SendTimestamped | src/launch-timestamp.cpp:44-50 | from the marked frame on, wire and offset are those of the start state |
| LaunchTime.DelayEmulator.Calibrate | src/launch-timestamp.cpp:36-55 | after calibration the object is in the start state, and the marked frame follows 6400 others |
| LaunchTime.DelayEmulator.TransmitRound | src/launch-timestamp.cpp:60-67 | an iteration is one round for whatever was received, with fillers of 9000 bytes if it was anything and of 1500 if not |
| LaunchTime.DelayEmulator.TransmitRounds | src/launch-timestamp.cpp:57-68 | any number of iterations, from any state, refine the abstract rounds |
| LaunchTime.DelayEmulator.TransmitLoop | src/launch-timestamp.cpp:35-69 | calibration and loop refine the abstract run, to which the run theorems apply |
| Stages.RunConcat | src/moonem.cpp:57-81 | a filter run over a concatenation is the run over the second part from where the first ended |
| Stages.OrderedArrivals | src/moonem_sw.cpp:104-107 | bursts read by a clock that never goes back put their packets in order |
| Stages.KeptAll | src/moonem_sw.cpp:159-181 | what holds of everything a filter may pass on holds of everything it kept |
| Stages.BurstsIrrelevant | src/moonem.cpp:26-41 | cutting a stream into bursts changes no decision and no state of one filter; used for the delay loop |
| Stages.RunCounts | src/moonem.cpp:97-120 | every packet is either kept or freed; used for the counts of the three hardware loops |
| Stages.FusedIsStaged | src/moonem_sw.cpp:160-181 | one pass through two filters keeps the same packets and ends in the same states as two passes |
| Stages.StagedBurstsIrrelevant | src/moonem.cpp:57-81 | two filters applied burst by burst act as two passes over the whole stream; used for the shaping loops |
| TokenBucket.AcceptsIffConforms | src/moonem.cpp:102-110 | from any state that summarises a history, the token comparison decides conformance |
| TokenBucket.ExactConformance | src/moonem.cpp:133-151 | after every stream a packet is accepted if and only if it fits the capacity, the total since the start and every window from an earlier accepted packet |
| TokenBucket.OutputBounded | src/moonem.cpp:94-111 | every window of accepted packets carries no more than capacity plus rate times its length |
| TokenBucket.RefillTwice | src/moonem.cpp:98-101 | refilling at an intermediate time changes no later level |
| TokenBucket.LazyIsEager | src/moonem.cpp:102-110 | not updating the tokens on a drop gives the same decisions as refilling at every arrival, for sorted streams |
| TokenBucket.EagerConformance | src/moonem_sw.cpp:107-130 | exact conformance for the loop that refills at every arrival |
| TokenBucket.BurstIsEager | src/moonem_sw.cpp:107-130 | refilling once per burst equals refilling at each of its packets |
| TokenBucket.GroupingIrrelevant | src/moonem_sw.cpp:104-130 | however arrivals are grouped into bursts, empty ones included, decisions and final tokens are those of the single stream |
| LeakyBucket.DrainTracks | src/moonem.cpp:60-64 | the wait of the virtual schedule, times the rate, is the content of a draining queue |
| LeakyBucket.StepRefines | src/moonem.cpp:60-71 | one packet is treated alike by the virtual schedule and by the fluid queue, and they stay in step |
| LeakyBucket.VirtualIsFluid | src/moonem.cpp:45-71 | for every sorted stream the virtual schedule accepts what the fluid queue of the given capacity accepts |
| LeakyBucket.VirtualStep | src/moonem.cpp:60-71 | an accepted packet leaves between its due time and the backlog bound and makes the line busy for its serialisation; a drop changes nothing |
| LeakyBucket.OutputSpacing | src/moonem.cpp:60-71 | for accepted packets i up to j of any run: spacing of at least the serialisation times between them, stamps that never decrease, and added delay within the bound for each |
| LeakyBucket.EarliestSchedule | src/moonem_sw.cpp:160-181 | no feasible schedule of the accepted packets sends any of them earlier |
| RateLaws.FairIsConforms | src/moonem.cpp:133-151 | whether a packet keeps a token bucket's windows is a comparison of integers: bytes beyond the capacity times ticks per unit against bytes per unit times ticks |
| RateLaws.BucketKeepsLaw | src/moonem.cpp:123-151 | for every stream the token bucket of a rate of n bytes in d ticks passes exactly the packets that are smaller than the capacity and with which neither the whole stream nor any window from an accepted packet exceeds that rate |
| RateLaws.PassedBounded | src/moonem.cpp:123-151 | every window of what passes stays within capacity and rate, in integers |
| RateLaws.ShaperKeepsLaw | src/moonem.cpp:44-71 | for every stream the leaky bucket of such a rate keeps the packets, and stamps them with the times, of an exact timetable in integers: a packet leaves when it is due and the line is free, occupies it for its bytes, and is dropped if it would wait for more than the capacity |
| LossModels.DrawnClosed | src/moonem_common.h:27-28 | after n draws the generator is seed + n * 0x60bee2bee120fc15 modulo 2^64 |
| LossModels.XorBits | src/moonem_common.h:31-31 | every bit of an exclusive or |
| LossModels.FoldedIff | src/moonem_common.h:30-31 | folding yields the one word whose bit i tells whether bits i and 64 + i of the product differ |
| LossModels.MixIff | src/moonem_common.h:27-35 | the output is the one word reached by two rounds of multiplying by the two constants and folding |
| LossModels.GeneratorPeriod | src/moonem_common.h:27-28 | two generator states of a run are equal if and only if their distance is a multiple of 2^64 |
| LossModels.GeneratorAfter | src/moonem_common.h:73-104 | after n packets, n draws have been made, 2n for Gilbert-Elliott and none without a model |
| LossModels.UniformLost | src/moonem_common.h:78-86 | whether packet i is lost depends on draw i + 1 of the seed alone |
| LossModels.GeLost | src/moonem_common.h:37-50 | packet i takes draws 2i + 1 and 2i + 2: the first leads to state 0 if it is at least parameter 1 in state 0, or below parameter 0 in any other state, and to state 1 if not; the second loses the packet if it is below parameter 2 in state 0, or parameter 3 in state 1 |
| LossModels.GeStaysGood | src/moonem_common.h:37-50 | if parameter 1 is zero, state 0 is never left and losses are uniform with parameter 2 |
| LossModels.GeStaysBad | src/moonem_common.h:37-50 | if parameter 0 is zero, state 1 is never left and losses are uniform with parameter 3 |
| LossModels.NetemStep | src/moonem_common.h:54-71 | the chain stays within its four states, and a packet is dropped if and only if the new state is the third or fourth |
| LossModels.NetemLost | src/moonem_common.h:96-104 | over whole runs packet i moves the chain by draw i + 1 along the table of its four states and eight parameters, sums modulo 2^64, and is lost if and only if it enters the third or fourth; if the chain never stays in its fourth state, as the front end configures it (examples/moonem.lua:156), no loss there is followed by another |
| LossModels.LossSelects | src/moonem_common.h:73-107 | kept and freed packets are the input filtered, in order, by the per-index loss decision |
| LossModels.LossPartitions | src/moonem_common.h:73-107 | kept and freed packets together are the input, as multisets |
| LossModels.AppliedPartitionsIff | src/moonem_common.h:73-107 | the call partitions its input if and only if a model is set or there is no input |
| LossModels.AppliedSplits | src/moonem_common.h:73-109 | splitting a burst in two calls changes neither the packets nor the final state |
| LossModels.InlineIsUniform | src/moonem_sw.cpp:173-176 | the loss test inside the software loops keeps what the uniform model keeps, and leaves the same generator if and only if the loss is above zero or the packet count is a multiple of 2^64 |
| LossModels.LossNatural | src/moonem_sw.cpp:76-81 | loss does not look at packets, so changing them before or after it is the same |
| LossModels.LossDevice.constructor | src/moonem.cpp:52-54 | the seed is the generator and the chain starts in its first state |
| LossModels.LossDevice.Wyhash64 | src/moonem_common.h:27-35 | the generator advances by one draw and the result is its output function |
| LossModels.LossDevice.GeDrop | src/moonem_common.h:38-50 | state and decision are those of the Gilbert-Elliott step, parameter by parameter |
| LossModels.LossDevice.NetemDrop | src/moonem_common.h:54-71 | state and decision are those of the NetEm step |
| LossModels.LossDevice.Drop | src/moonem_common.h:75-104 | state and decision are those of the configured model |
| LossModels.LossDevice.ApplyLoss | src/moonem_common.h:73-109 | the prefix of the send buffer, the freed packets and the new state are those of the loss filter |
| ShaperLoops.Thin | src/moonem.cpp:73-80 | a burst passes the loss model if there is one and is untouched otherwise |
| ShaperLoops.Refill | src/moonem.cpp:141-141 | the tokens earned since the last update, up to the capacity |
| ShaperLoops.HwFair | src/moonem.cpp:123-151 | what passing means for a configured path: length + 24 below the capacity, 8000 times all bytes so far below rate times time, and 8000 times the bytes of every window beyond the capacity below rate times its nanoseconds |
| ShaperLoops.HwPolices | src/moonem.cpp:123-151 | for every stream the configured bucket passes exactly those packets, and every window of them is within 8000 * (bytes - capacity) < rate * nanoseconds |
| ShaperLoops.ReceiverLoopDelay | src/moonem.cpp:19-42 | for any bursts the whole function sends what the loss model leaves of the stream, each packet due the delay after its time stamp; every packet is sent or freed |
| ShaperLoops.TokenBucketReceiver.constructor | src/moonem.cpp:123-134 | 8000 times the rate in bytes per nanosecond is the configured rate, capacity and delay are the configured ones, no tokens, time zero |
| ShaperLoops.TokenBucketReceiver.Police | src/moonem.cpp:133-151 | one packet takes one step of the lazy bucket |
| ShaperLoops.TokenBucketReceiver.Receive | src/moonem.cpp:123-162 | a burst passes the lazy bucket and then the loss model, with both states advanced |
| ShaperLoops.TokenBucketReceiver.Loop | src/moonem.cpp:136-161 | the outer loop is bucket and loss applied burst by burst |
| ShaperLoops.ReceiverLoopTokenBucket | src/moonem.cpp:123-162 | for any bursts the whole function sends what the loss model leaves of the packets that pass in that sense, each due the delay after its time stamp; for every window of these, 8000 * (bytes - capacity) < rate * nanoseconds; every packet is sent or freed |
| ShaperLoops.LeakyBucketReceiver.constructor | src/moonem.cpp:44-55 | 1000 times the rate in bits per nanosecond is the configured rate, capacity and delay are the configured ones, an idle line |
| ShaperLoops.LeakyBucketReceiver.Shape | src/moonem.cpp:60-71 | one packet takes one step of the virtual schedule |
| ShaperLoops.LeakyBucketReceiver.Receive | src/moonem.cpp:44-82 | a burst passes the virtual schedule and then the loss model |
| ShaperLoops.LeakyBucketReceiver.Loop | src/moonem.cpp:57-81 | the outer loop is schedule and loss applied burst by burst |
| ShaperLoops.ReceiverLoopLeakyBucket | src/moonem.cpp:44-82 | for any bursts the whole function sends what the loss model leaves of the timetable of `rate` bytes in 8000 ns; packets are spaced, wait within the bound and, in order of arrival, leave as from the fluid queue; every packet is sent or freed |
| HardwarePaths.DelayStems | src/moonem.cpp:19-42 | every packet the delay loop adds to the ring is one that arrived, due exactly the delay after its arrival |
| HardwarePaths.TokenStems | src/moonem.cpp:123-162 | the same for the token-bucket loop |
| HardwarePaths.LeakyStems | src/moonem.cpp:44-82 | the same for the leaky-bucket loop, due up to the backlog bound later |
| HardwarePaths.PathAccuracy | src/launch-timestamp.cpp:35-69 | from arrival to wire, for any cut of the ring into batches: in every complete run each packet on the wire arrived, and starts later than its due time minus one minimum frame and before it plus the wait, plus 1 ns if judged on time or 100001 ns if late |
| HardwarePaths.DelayPathAccuracy | examples/moonem.lua:240-253 | that promise for the path with plain delay, with no wait |
| HardwarePaths.TokenPathAccuracy | examples/moonem.lua:240-253 | that promise for the path with a token bucket, with no wait |
| HardwarePaths.LeakyPathAccuracy | examples/moonem.lua:240-253 | that promise for the path with a leaky bucket, with the backlog bound as wait |
| HardwarePaths.Wait | src/moonem.cpp:45-46 | how much later than the delay a packet may be due: capacity * 8000 / rate with a leaky bucket, nothing without |
| HardwarePaths.HwRxLoop | examples/moonem.lua:276-286 | with a delay, what is added to the ring is what the loss model leaves of the delayed stream without a rate, of the timetable with a leaky bucket, and of what the law passes with a token bucket |
| HardwarePaths.TakeBatches | src/launch-timestamp.cpp:58-59 | batches of at most 64 that concatenate to a prefix of what was added |
| HardwarePaths.HardwarePath | examples/moonem.lua:240-253 | receive loop and launch timer together: unless the end of a batch was lost, every packet on the wire arrived and starts in time |
| DelayRing.StampedWellFormed | src/moonem_sw.cpp:78-88 | a stamped burst shares one release time, its countdown lets any cut recover the rest of the burst, and its release is the delay after the receipt |
| DelayRing.SinglesWellFormed | src/moonem_sw.cpp:178-180 | packets enqueued as bursts of one are well formed whatever their release times |
| DelayRing.WellFormedConcat | src/moonem_sw.cpp:132-139 | enqueueing behind other bursts keeps the ring well formed |
| DelayRing.ReceiveKeepsReceiver | src/moonem_sw.cpp:104-107 | reading a burst and the clock keeps the receiver's state and output those of all bursts read, in order of time |
| DelayRing.EnqueueConserves | src/moonem_sw.cpp:137-139 | a bulk enqueue, taken or refused as a whole, keeps every packet accounted for and the order while nothing was refused |
| DelayRing.EnqueueKeepsRing | src/moonem_sw.cpp:137-139 | a bulk enqueue keeps what the transmitter relies on |
| DelayRing.DequeueKeepsRing | src/moonem_sw.cpp:190-193 | a dequeue that cuts anywhere inside a burst keeps it, too |
| DelayRing.GroupDue | src/moonem_sw.cpp:193-199 | once the first packet of a group is due all of the group is |
| DelayRing.TransmitKeepsRing | src/moonem_sw.cpp:193-199 | sending a group keeps order and release times |
| DelayRing.RunInv | src/moonem_sw.cpp:190-201 | both sides' invariants hold after every interleaving of receiver, transmitter and clock, for every lawful receiver |
| DelayRing.EnqueueRejectsIff | src/moonem_sw.cpp:137-139 | in every reachable state the ring is within its capacity, and an enqueue refuses if and only if something is held that does not fit behind what is there; then it refuses all of it, otherwise all of it goes to the end |
| DelayRing.NothingRejected | src/moonem_sw.cpp:137-139 | nothing is refused in any run whose receiver passed on no more packets than the ring can hold |
| DelayRing.ArrivalsReachable | src/moonem_sw.cpp:104-107 | every sequence of bursts of 1 to 64 packets in order of time arrives in some run |
| DelayRing.RingSafety | src/moonem_sw.cpp:190-201 | in every reachable state packets are sent at most once, in the order accepted, never before their release and never before the delay after their receipt; between batches nothing is missing; what the receiver passed on is accepted, refused or held, and refused only if it was more than the ring can hold |
| DelayRing.AdvanceRanks | src/moonem_sw.cpp:190-201 | while work is left, some step of clock, transmitter or receiver strictly reduces it |
| DelayRing.EverythingIsSent | src/moonem_sw.cpp:190-201 | from every reachable state all that was accepted can be sent; if nothing was refused and the ring can hold what is held, that is exactly what the receiver passed on, in order |
| DelayRing.StampBurst | src/moonem_sw.cpp:78-88 | the in-place loop gives each packet the release time and its countdown and leaves the rest of the array alone |
| DelayRing.WaitFor | src/moonem_sw.cpp:195-195 | busy waiting ends no earlier than the release |
| DelayRing.TransmitBatch | src/moonem_sw.cpp:193-199 | the loop ends, sends the whole batch in order, nothing before its release, at times that never decrease, with one time for packets of one burst, and is a run of clock, poll and transmit steps of the machine |
| DelayRing.BurstLeavesTogether | src/moonem_sw.cpp:193-199 | what a batch holds of one received burst leaves at one time, wherever the dequeue cut it |
| DelayRing.TransmitterRound | src/moonem_sw.cpp:192-200 | a whole round, dequeue of up to 64 packets included, is a run of steps of the machine from any state of an idle transmitter |
| SoftwareLoops.Cycles | src/moonem_sw.cpp:95-95 | the delay in cycles is the delay in nanoseconds at the clock's frequency, rounded down |
| SoftwareLoops.SwFair | src/moonem_sw.cpp:94-130 | what passing means for a configured path: 8 * frequency * bytes against 1000000 * rate * cycles, for all bytes so far and for every window beyond the capacity |
| SoftwareLoops.SwBucketKeeps | src/moonem_sw.cpp:95-97 | the bucket of a configuration earns exactly 1000000 * rate bytes in 8 * frequency cycles |
| SoftwareLoops.SwShaperKeeps | src/moonem_sw.cpp:145-147 | the shaper of a configuration takes exactly 1000000 * rate bytes in 8 * frequency cycles |
| SoftwareLoops.DelayLawful | src/moonem_sw.cpp:72-91 | from any state and for any burst the delay receiver enqueues a well-formed burst, released the delay after its receipt |
| SoftwareLoops.TokenLawful | src/moonem_sw.cpp:104-140 | the same for the token-bucket receiver |
| SoftwareLoops.LeakyLawful | src/moonem_sw.cpp:154-187 | the same for the leaky-bucket receiver, whose packets are released one by one and never before the delay |
| SoftwareLoops.DelayStream | src/moonem_sw.cpp:72-91 | over any bursts the delay receiver passes on what the loss model leaves of the stream, each packet the delay after its arrival |
| SoftwareLoops.TokenStream | src/moonem_sw.cpp:104-140 | over any bursts the token-bucket receiver passes on what uniform loss leaves of what the textbook bucket leaves of the stream, with the same tokens |
| SoftwareLoops.LeakyStream | src/moonem_sw.cpp:154-187 | over any bursts the leaky-bucket receiver passes on what uniform loss leaves of what the schedule leaves of the stream, with the same schedule |
| SoftwareLoops.DelayPathRuns | src/moonem_sw.cpp:63-92 | in every run of receiver, ring and transmitter the ring is safe and the receiver has passed on the delayed remainder of the arrivals |
| SoftwareLoops.TokenPathRuns | src/moonem_sw.cpp:94-142 | in every run the ring is safe, and what was passed on is what loss leaves of a stream none of whose windows exceeds its allowance |
| SoftwareLoops.TokenPathConforms | src/moonem_sw.cpp:107-130 | in every reachable state the next packet is accepted if and only if every window it closes stays within its allowance |
| SoftwareLoops.SwTokenPathRuns | src/moonem_sw.cpp:94-142 | in every run of the configured path the ring is safe, and what was passed on is what uniform loss leaves of the packets that pass in the sense of `SwFair`, no window of which exceeds the rate by more than the capacity |
| SoftwareLoops.SwTokenPathConforms | src/moonem_sw.cpp:94-142 | in every reachable state of the configured path the next packet is accepted if and only if it passes in that sense behind what passed before |
| SoftwareLoops.LeakyPathRuns | src/moonem_sw.cpp:144-188 | in every run the ring is safe, and what was passed on is what loss leaves of the departures of the fluid queue |
| SoftwareLoops.SwLeakyPathRuns | src/moonem_sw.cpp:144-188 | in every run of the configured path the ring is safe, and what was passed on is what uniform loss leaves of the timetable of its rate |
| SoftwareLoops.StampOut | src/moonem_sw.cpp:132-135 | what is left of a burst gets one release time and its countdown |
| SoftwareLoops.SingleOut | src/moonem_sw.cpp:178-180 | every packet becomes a burst of its own |
| SoftwareLoops.SwDelayReceiver.constructor | src/moonem_sw.cpp:63-70 | the delay in cycles |
| SoftwareLoops.SwDelayReceiver.Receive | src/moonem_sw.cpp:72-91 | a burst becomes what the delay receiver passes on, with the loss state advanced |
| SoftwareLoops.SwReceiverLoopDelay | src/moonem_sw.cpp:63-92 | for any bursts the whole function adds to the ring what the delay path's receiver passes on, which is the delayed remainder of the stream |
| SoftwareLoops.SwTokenBucketReceiver.constructor | src/moonem_sw.cpp:94-102 | 1000000 * rate bytes in 8 * frequency cycles, delay in cycles, no tokens |
| SoftwareLoops.SwTokenBucketReceiver.Serve | src/moonem_sw.cpp:111-128 | the one-pass loop over a burst does what the bucket followed by the loss test does |
| SoftwareLoops.SwTokenBucketReceiver.Admit | src/moonem_sw.cpp:113-127 | one packet takes one step of the bucket fused with the inline loss test |
| SoftwareLoops.SwTokenBucketReceiver.Receive | src/moonem_sw.cpp:104-140 | a burst becomes what the token-bucket receiver passes on, with release time and countdown; an empty poll changes nothing |
| SoftwareLoops.SwReceiverLoopTokenBucket | src/moonem_sw.cpp:94-142 | for any bursts the whole function adds to the ring what the token path's receiver passes on: uniform loss applied to the textbook bucket applied to the stream; for packets in order that is what passes in the sense of `SwFair`, and no window exceeds the rate by more than the capacity |
| SoftwareLoops.SwLeakyBucketReceiver.constructor | src/moonem_sw.cpp:144-152 | 1000000 * rate bytes in 8 * frequency cycles, delay in cycles, an idle line |
| SoftwareLoops.SwLeakyBucketReceiver.Admit | src/moonem_sw.cpp:160-181 | one packet takes one step of the virtual schedule fused with the inline loss test |
| SoftwareLoops.SwLeakyBucketReceiver.Schedule | src/moonem_sw.cpp:159-181 | the one-pass loop over a burst does what the schedule followed by the loss test does |
| SoftwareLoops.SwLeakyBucketReceiver.Receive | src/moonem_sw.cpp:154-187 | a burst becomes what the leaky-bucket receiver passes on, in bursts of one |
| SoftwareLoops.SwReceiverLoopLeakyBucket | src/moonem_sw.cpp:144-188 | for any bursts the whole function adds to the ring what the leaky path's receiver passes on: uniform loss applied to the timetable of the configured rate; packets are spaced, wait within the bound and, in order of arrival, leave as from the fluid queue |
| SoftwareLoops.InlineLossIsStaged | src/moonem_sw.cpp:160-181 | for every stream and seed the one-pass loop keeps what the shaper followed by the loss stage keeps, with the same shaper state; the generator ends alike if and only if the loss is above zero or the shaper kept a multiple of 2^64 packets |
| OnlineStats.MomentsExact | src/histogram.cpp:36-40 | after any samples, count times mean is their sum and m2 is the sum of squared deviations from the current mean |
| OnlineStats.SampleVariance | src/histogram.cpp:57-63 | for two or more samples the finalised variance is the sample variance about the true mean |
| OnlineStats.BucketSymmetric | src/histogram.cpp:42-50 | negative values mirror positive ones |
| OnlineStats.BucketNearest | src/histogram.cpp:42-50 | a value goes to a multiple of the bucket size, no other multiple is nearer, and of two equally near ones it is the one further from zero |
| OnlineStats.TallyOne | src/histogram.cpp:51-52 | incrementing one entry keeps the map equal to the number of samples in each bucket |
| OnlineStats.Histogram.constructor | src/histogram.cpp:83-93 | an empty histogram |
| OnlineStats.Histogram.Update | src/histogram.cpp:31-55 | moments and tallies are those of all samples so far, also negative ones, and the result tells the sign |
| OnlineStats.Histogram.UpdateMoments | src/histogram.cpp:36-40 | one step of the online moments |
| OnlineStats.Histogram.UpdateStorage | src/histogram.cpp:42-52 | the bucket of the sample gains one |
| OnlineStats.Histogram.FindBucket | src/histogram.cpp:43-50 | the in-place rounding, with truncating division, finds the bucket |
| OnlineStats.Histogram.Finalize | src/histogram.cpp:57-63 | the variance is set for two or more samples and is kept otherwise |
| LiveTable.FoundIffMatches | src/moonsniff.cpp:83-89 | a test finds a timestamp if and only if the last use of its slot was an add of the same identifier with that non-zero timestamp |
| LiveTable.MatchedOnce | src/moonsniff.cpp:68-89 | each add is matched by at most one test and each test by at most one add |
| LiveTable.TableWithinMap | src/moonsniff.cpp:68-106 | whatever the table finds, an unbounded map from whole identifiers would find |
| LiveTable.AgreesIff | src/moonsniff.cpp:68-106 | table and map agree on all runs over given identifiers and timestamps if and only if the identifiers differ in their slots and no timestamp is zero |
| LiveTable.ZeroDiffers | src/moonsniff.cpp:68-89 | an add with timestamp zero is missed |
| LiveTable.CollisionDiffers | src/moonsniff.cpp:68-89 | a second identifier in the slot evicts the first |
| LiveTable.SlotsMeetIff | src/moonsniff.cpp:69-84 | two identifiers share a slot if and only if they agree modulo 2^24 |
| LiveTable.SamplesStep | src/moonsniff.cpp:83-106 | an operation adds a sample if and only if it matches an add, and then its own timestamp less that of the add |
| LiveTable.SamplesAreLatencies | src/moonsniff.cpp:83-106 | the samples of any run are, in the order of the tests, the differences second minus first of exactly the pairs of add and test that match |
| LiveTable.MatchesListed | src/moonsniff.cpp:68-106 | the matches of any run can be listed in that order |
| LiveTable.Sniffer.constructor | src/moonsniff.cpp:58-60 | all slots vacant, no statistics |
| LiveTable.Sniffer.AddEntry | src/moonsniff.cpp:68-74 | the table holds the content of the extended run |
| LiveTable.Sniffer.Take | src/moonsniff.cpp:84-89 | the slot is emptied and the answer is what the run left there for this identifier |
| LiveTable.Sniffer.TestFor | src/moonsniff.cpp:83-106 | hits plus misses are the tests, and the moments are those of the latencies of all matches of the run |
| LiveTable.Sniffer.Measure | src/moonsniff.cpp:98-102 | one step of the online moments |
| LiveTable.Sniffer.Finalize | src/moonsniff.cpp:112-121 | the variance is brought up to date for two or more samples, and both figures lose their fractions |
| LiveTable.Sniffer.FetchStats | src/moonsniff.cpp:111-122 | for one match the average is its second timestamp less its first; for any number it is the sum of these differences over all matches divided by their number, towards zero, and the variance is their sample variance |
| RateSearch.BinarySearch.constructor | rfc2544/utils/utils.lua:160-165 | the limits given |
| RateSearch.BinarySearch.Init | rfc2544/utils/utils.lua:168-171 | the limits given replace the old ones |
| RateSearch.BinarySearch.Next | rfc2544/utils/utils.lua:173-192 | one move of the search: it stops on a pass at the top, otherwise moves one limit to the current rate and proposes the rounded-up middle, stopping when it is within the threshold |
| RateSearch.TopOrRetried | rfc2544/utils/utils.lua:173-192 | the rate equals the upper limit either in the first trial, at the maximum, or when a rate that failed is tried again, and never both |
| RateSearch.PassAtTopIsMaximum | rfc2544/utils/utils.lua:174-176 | a device whose answers depend on the rate alone passes at the upper limit only at the maximum, for any threshold |
| RateSearch.PassedAtMaximum | rfc2544/utils/utils.lua:173-192 | with a threshold of at least two or a maximum of at most two, every pass at the upper limit in any run is at the maximum, whatever the answers |
| RateSearch.TopIsMaximumIff | rfc2544/utils/utils.lua:173-192 | these parameters are exactly those for which that holds of all runs |
| RateSearch.RetriedPerformed | rfc2544/utils/utils.lua:173-192 | for threshold one and every maximum from three on, a run that fails down to two, passes at one and ends with a pass at two |
| RateSearch.RetriedBelowMaximum | rfc2544/benchmarks/throughput.lua:168-233 | the search itself makes that run against a device that fails its first trials and passes then: it returns two, a rate that had failed |
| RateSearch.StopsAtTop | rfc2544/utils/utils.lua:174-176 | a pass at the upper limit ends the search with the maximum, or with a rate that had failed before |
| RateSearch.StopsWhenClose | rfc2544/utils/utils.lua:177-192 | when the next rate is close, the last valid rate lies less than twice the threshold below a failed one |
| RateSearch.Narrows | rfc2544/utils/utils.lua:177-192 | otherwise the open interval has halved, for any answers |
| RateSearch.RunReady | rfc2544/benchmarks/throughput.lua:178-233 | after any run of trials, whatever the answers, the search is over with a justified result or its interval, its bracket and its trial count are as bounded |
| RateSearch.Determined | rfc2544/benchmarks/throughput.lua:178-233 | the answers of the device determine the trials of the search |
| RateSearch.HalvingsIff | rfc2544/utils/utils.lua:177-192 | the number of halvings is at most k if and only if max <= threshold * 2^k |
| RateSearch.Search | rfc2544/benchmarks/throughput.lua:168-233 | for any answers, it makes exactly the trials of a run that is over, at most ceil(log2(max / threshold)) + 1 of them, or one more for threshold one, and returns the last valid rate, which is the maximum or bracketed by a failure |
| RateSearch.SearchAccuracy | rfc2544/benchmarks/throughput.lua:168-233 | for a device that passes exactly up to T >= 0, the result is at most T, and is the maximum or above T - 2 * threshold + 1 |
| QueueAllocator.BookedCounts | interface/devmgr.lua:5-16 | after any reservations each counter is the number of requests of its kind, an RSS queue counting as a receive queue too |
| QueueAllocator.LogIndex | interface/devmgr.lua:24-34 | the index handed out is the number of earlier equal requests, after the RSS queues for plain receive queues |
| QueueAllocator.AllocationSound | interface/devmgr.lua:5-44 | if no more is requested than reserved, every index is below the configured count and in its range, and no queue of a direction is handed out twice |
| QueueAllocator.DevMgr.constructor | interface/devmgr.lua:46-61 | no devices |
| QueueAllocator.DevMgr.ReserveTx | interface/devmgr.lua:5-7 | one more transmit reservation |
| QueueAllocator.DevMgr.ReserveRx | interface/devmgr.lua:9-11 | one more receive reservation |
| QueueAllocator.DevMgr.ReserveRss | interface/devmgr.lua:13-16 | one more RSS reservation |
| QueueAllocator.DevMgr.Configure | interface/devmgr.lua:36-44 | each device is configured with what was booked |
| QueueAllocator.DevMgr.TxQueue | interface/devmgr.lua:24-26 | the next transmit queue is handed out and logged |
| QueueAllocator.DevMgr.RxQueue | interface/devmgr.lua:28-30 | the next receive queue is handed out and logged |
| QueueAllocator.DevMgr.RssQueue | interface/devmgr.lua:32-34 | the next RSS queue is handed out and logged |
| QueueAllocator.EnumeratedAsks | interface/threads/arp.lua:49-72 | asking once per device of a set is the same demand in every traversal order |
| QueueAllocator.StampAsksTotal | interface/threads/timestamp.lua:32-43 | the memoised requests of all pairs ask once per sender and once per receiver |
| QueueAllocator.DemandCounts | interface/threads/count.lua:10-17 | for every device: one RSS queue per place in the receiver lists of the flows; one transmit queue per place in the sender lists, and one for each of address resolution and time stamping it takes part in; one receive queue for each of these |
| QueueAllocator.ConfiguredProvides | interface/devmgr.lua:36-44 | every device is configured with as many queues of each kind as were reserved, and at least one for each direction |
| QueueAllocator.PrepareLoad | interface/threads/load.lua:12-19 | one transmit queue is reserved per flow and device |
| QueueAllocator.StartLoad | interface/threads/load.lua:21-23 | exactly these are requested |
| QueueAllocator.PrepareCount | interface/threads/count.lua:10-17 | one RSS queue is reserved per flow and device |
| QueueAllocator.StartCount | interface/threads/count.lua:19-26 | exactly these are requested |
| QueueAllocator.PrepareArp | interface/threads/arp.lua:29-53 | one queue of each direction is reserved per device that answers or resolves |
| QueueAllocator.StartArp | interface/threads/arp.lua:55-72 | exactly these are requested, in any order |
| QueueAllocator.PrepareTimestamp | interface/threads/timestamp.lua:10-30 | one queue per distinct sender and per distinct receiver is reserved |
| QueueAllocator.StartTimestamp | interface/threads/timestamp.lua:32-43 | each device is asked on its first use only |
| QueueAllocator.Allocate | interface/init.lua:55-72 | for every list of flows, preparing, configuring and starting all threads hands out exactly the demand of the flows, soundly, on devices configured with just that; if no flow has a device to send from, nothing is configured |

## Left out

- Floating-point rounding: all doubles are exact reals.
- Integer widths: counters, offsets and stamps do not wrap.
- CrcRateControl.FillerWire: what the code does after a filler size has wrapped around is not modelled; `SaneIff` says exactly for which sizes that can happen.
- Failing allocations and the contents of packets: a send hands over the whole batch.
- ShaperLoops.ReceiverLoopTokenBucket: the refusal of bulks by a full ring is modelled for the software paths only; the hardware loops end with what they offer to the ring.
- A line that runs idle: wire positions assume the transmit loop keeps it busy.
- DelayRing.RingSafety: one clock is shared by both threads and advances between two readings of it; clock skew between cores is not modelled.
- LiveTable.Sniffer.TestFor: adds and tests are atomic and one thread tests, as the statistics are not locked.
- HardwarePaths.HardwarePath: the receive loop is run before the transmit loop; the two threads meet only in the ring, and any cut into batches, empty ones included, is covered. Both network cards tell the same time.
- Probabilities and the quality of the generator's output function: only deterministic facts are stated.
- RateSearch.Search: repeated iterations, averaging, packet counts and the stop of the whole program are left out; one search is one run.
- QueueAllocator.Allocate: MAC and IP addresses, the assertion on an unresolved source MAC, the statistics thread and the work of the started tasks are left out.
- src/software-rate-limiter.cpp: busy waiting on a clock, and a library distribution.
- Capture logging and file formats in src/moonsniff.cpp, the offline matcher examples/moonsniff/arrmatch.lua.
- Encoding of flow identifiers in payloads, and the range generator of flow configurations.
- The back-to-back, frame loss and latency benchmarks, reports, remote control of devices and the command line.
