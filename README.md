# libsigrok driver and input-module core, modelled in Dafny

This project models part of libsigrok, the hardware-access library of the
sigrok signal-analysis suite. It covers the code that turns configuration
requests, timer ticks and received bytes into device state and into
packets on the session bus. Each core C file has its own Dafny module:

- `Demo`, `DemoPacing`, `DemoPatterns`, `DemoAnalog` and `DemoBus`: the demo
  driver (`src/hardware/demo/demo.c`). This covers the acquisition tick's
  time-to-samples pacing, the logic pattern generator over its 4096-byte
  buffer, and the analog generators with their circular read and running
  average. It also covers the get / set / list switches and the open /
  start / stop life cycle. The device context is the class
  `Demo.DemoDevice`, and the session bus is its `packets` sequence.
- `SwLimits`: the software limits record (`src/sw_limits.c`).
- `Scanner`, `SerialDmm` and `KernScale`: the receive buffers of the
  serial multimeter and KERN scale drivers. This covers the read bounded
  by the free space, the packet scan, the compaction of the unscanned
  tail, the request pacer and the limit check.
- `Ft2232h`: the FT2232H sample forwarder and its two counters.
- `RawAnalog` and `ChronovuLa8`: the raw-analog and ChronoVu LA8 file input
  modules. This covers format parsing, init, the one-time header, and the
  cutting of the buffer into packets of whole samples.
- `Korad`: the Korad KAxxxxP polling loop. This covers the round robin of
  targets, set / query / reply, status-byte decoding and the stale-reply
  timeout.
- `HungChang`: the Hung-Chang DSO-2100's configuration, kept as table
  indexes and as bit fields of the channel control bytes.
- `SysclkLwla`: the SysClk LWLA driver's option lookup, get / set / list,
  channel mask, trigger masks and cancel logic.
- `AsixSigma`: the ASIX SIGMA driver's scan check, get / set / list, and
  the register values of dev_acquisition_start.
- `ChronovuLa`: the ChronoVu LA8 / LA16 driver's get / set / list, its
  acquisition-parameter packet and its block counter.
- `DslogicDefs` and `Dslogic`: the DSLogic protocol definitions, the start
  and stop commands, and the FPGA configuration record.
- `ScpiPps`: the SCPI power-supply driver. This covers the channels and
  groups built by probe_device, the get / set / list switches, the beeper
  handling, and the measure command.
- `Std`: the standard helpers of `src/std.c`.

Where the C code updates a record in place, the model is a class whose
methods state the whole new state. Pure lookups and arithmetic are
functions, and lemmas relate them: set-then-get round trips, iff
characterisations, counters that are preserved, and loops shown equal to
a specification function. The model has no clock, ports or USB. Time,
transfer outcomes and bytes read are arguments of the calls that use
them.

Two behaviours of the code worth knowing:

- serial-dmm's scan stops after the first valid packet for meters
  *without* a packet request (`src/hardware/serial-dmm/protocol.c:141-142`).
  For request-driven meters it does not stop early.
- korad's `get_reply` returns early on a read error, so `reply_pending` is
  not cleared on that path (`src/hardware/korad-kaxxxxp/protocol.c:210-293`).

## Model

| member | source | states |
|---|---|---|
| SwLimits.Limits.Init | src/sw_limits.c:28-32 | both limits are switched off and nothing else changes |
| SwLimits.Limits.ConfigGet | src/sw_limits.c:34-49 | the sample limit is read back as stored, the time limit in milliseconds; any other key gives SR_ERR_NA |
| SwLimits.Limits.ConfigSet | src/sw_limits.c:51-66 | one limit is stored and the other kept; the time limit is the uint64 product value x 1000, which reads back as the value exactly when it did not wrap; an unknown key changes nothing and gives SR_ERR_NA |
| SwLimits.MsecRoundTrip | src/sw_limits.c:59 | the wrapped millisecond product divided by 1000 gives the value back if and only if the product fits 64 bits |
| SwLimits.Limits.AcquisitionStart | src/sw_limits.c:68-72 | the sample count restarts at 0 and the start time is the given clock reading |
| SwLimits.Limits.Check | src/sw_limits.c:74-90 | true exactly when a set sample limit is reached or more than a set time limit has passed since the start |
| SwLimits.Limits.UpdateSamplesRead | src/sw_limits.c:92-96 | the count grows by exactly the samples read |
| SwLimits.UnlimitedNeverStops | src/sw_limits.c:74-90 | with both limits off the check is false at every count and time |
| SwLimits.CheckStaysTrue | src/sw_limits.c:74-90 | once the check fires it stays true for every later time and larger count |
| Std.SendHeader | src/std.c:94-121 | a NULL prefix gives SR_ERR_ARG and sends nothing; otherwise one header is sent, and sr_session_send's code is returned when negative, SR_OK otherwise |
| Std.SendEnd | src/std.c:133-153 | a missing instance or prefix gives SR_ERR_ARG and sends nothing; otherwise one end packet, and the send's code when negative, SR_OK otherwise |
| Std.CloseStatus | src/std.c:194-205 | only an ACTIVE device with a port becomes INACTIVE; every other status is kept |
| Std.CloseIdempotent | src/std.c:194-205 | closing twice leaves the same status as closing once |
| Std.StopSteps | src/std.c:228-259 | NULL prefix gives SR_ERR_ARG, not ACTIVE gives SR_ERR_DEV_CLOSED, then remove source, close, send end, stopping at the first step that returns a negative code, with that code |
| Std.StopEndsOnlyAfterClose | src/std.c:228-259 | the end packet is sent exactly when the arguments were good and neither the source removal nor the close returned a negative code |
| Std.SerialDevice.SendDfHeader | src/std.c:94-121 | the bus gains the header exactly when the prefix is given, and the status is SendHeader's |
| Std.SerialDevice.SendDfEnd | src/std.c:133-153 | the bus gains the end packet exactly when instance and prefix are given |
| Std.SerialDevice.SerialDevOpen | src/std.c:170-181 | the status becomes ACTIVE only when the port opens; otherwise SR_ERR and no change |
| Std.SerialDevice.SerialDevClose | src/std.c:194-205 | always SR_OK; the status moves from ACTIVE to INACTIVE only with a port, as CloseStatus |
| Std.SerialDevice.SerialDevAcquisitionStop | src/std.c:228-259 | status, closing and the end packet follow StopSteps step for step |
| Std.Teardown | src/std.c:301-325 | the teardown of one instance touches only that instance and ends by freeing it |
| Std.FreedTeardown | src/std.c:301-325 | one teardown frees exactly its own instance |
| Std.ClearFreesEachOnce | src/std.c:283-332 | std_dev_clear frees every non-NULL instance exactly once, in list order, and nothing else |
| Std.Driver.Init | src/std.c:47-57 | a fresh driver context holding the library context and an empty instance list |
| Std.Driver.DevList | src/std.c:346-351 | for an initialised driver, the instances of its context; the code reads the context without a check, so the model demands one |
| Std.Driver.DevClear | src/std.c:283-332 | no context: SR_OK and no change; otherwise every instance is torn down, a NULL entry gives SR_ERR_BUG without stopping the loop, and the list ends empty |
| Std.ClearLoop | src/std.c:295-326 | the loop over the instances performs the per-instance steps of ClearAll and reports SR_ERR_BUG exactly when some instance is null, SR_OK otherwise |
| DemoPacing.SamplesForIsCeiling | src/hardware/demo/demo.c:767-768 | while todo_us x rate + 999999 fits the uint64 it is computed in, samples_todo is the ceiling of that product over one million: it covers the window and by less than one sample more |
| DemoPacing.SamplesForWraps | src/hardware/demo/demo.c:767-768 | once that uint64 sum passes 2^64 it wraps, and samples_todo no longer covers the window |
| DemoPacing.LimitUs | src/hardware/demo/demo.c:760 | limit_us is the uint64 product 1000 x limit_msec read as an int64: the product itself while it is below 2^63, 0 for no limit, and negative exactly when the product modulo 2^64 reaches 2^63 |
| DemoPacing.UsForIsFloor | src/hardware/demo/demo.c:779 | while n x 10^6 fits an int64, the time accounted for n samples is the floor of n million over the rate |
| DemoPacing.CoverWithinOnePeriod | src/hardware/demo/demo.c:767-779 | ceiling then floor, for a window whose product with the rate stays below 2^63 - 10^6: the accounted time covers the owed window and exceeds it by less than one sample period |
| DemoPacing.TickWithinSampleLimit | src/hardware/demo/demo.c:769-774 | the sample counter never passes a non-zero sample limit |
| DemoPacing.IdleTick | src/hardware/demo/demo.c:758-779 | a tick with nothing owed sends nothing and leaves the counters unchanged |
| DemoPacing.UnlimitedTickTracksClock | src/hardware/demo/demo.c:758-820 | without limits, and with the owed window times the rate below 2^63 - 10^6, a tick brings the covered time level with the clock or ahead by less than one sample period, and changes nothing when already ahead |
| DemoPacing.TimeLimitStops | src/hardware/demo/demo.c:759-764 | for a time limit whose microseconds fit an int64 and an owed window whose product with the rate does too, once the limit has passed the tick covers up to it, so the stop condition holds afterwards |
| DemoPacing.WrappedTimeLimitIgnored | src/hardware/demo/demo.c:760-761 | a limit whose product 1000 x limit_msec lands at or above 2^63 modulo 2^64 gives a negative limit_us: the tick paces by the clock alone and the time limit never stops the acquisition |
| DemoPacing.KiloHertzTick | src/hardware/demo/demo.c:759-823 | at 1 kHz with a time limit of L ms, L x 10^6 below 2^63, one tick keeps spent = 1000 x sent within the limit, and the stop fires exactly when the limit count is reached |
| DemoPacing.KiloHertzRunSendsExactly | src/hardware/demo/demo.c:759-823 | a 1 kHz run with a limit of L ms, L x 10^6 below 2^63, never sends more than L samples, and exactly L once the clock has passed the limit |
| DemoPacing.QuarterSecondAtOneKilohertz | src/hardware/demo/demo.c:759-823 | 250 ms at 1 kHz sends exactly 250 samples |
| DemoPatterns.PatternNamesRoundTrip | src/hardware/demo/demo.c:81-97 | each pattern's name is found in its table at the pattern's own position |
| DemoPatterns.PatternNameAt | src/hardware/demo/demo.c:81-97 | the name of the pattern at a table position is the table's entry there |
| DemoPatterns.UnitStreamAppend | src/hardware/demo/demo.c:641-647 | two consecutive chunks of the per-step pattern stream are the stream of their combined length, so chunking does not change the bytes |
| DemoPatterns.GenerateAnalogPattern | src/hardware/demo/demo.c:182-253 | square: slots alternate sign every five, count 1020; other patterns: the first 1020 slots hold the wave, count 1020; slots past the count kept |
| DemoPatterns.FillSquare | src/hardware/demo/demo.c:194-205 | slots 0..1023 alternate between minus and plus the amplitude every five slots; the count is the last multiple of 10 passed, 1020 |
| DemoPatterns.DivStep | src/hardware/demo/demo.c:197-203 | stepping i by one moves i / n exactly at the multiples of n |
| DemoPatterns.WholePeriods | src/hardware/demo/demo.c:213-214 | the count-down stops at the largest multiple of 20 not above the start |
| DemoPatterns.FillWave | src/hardware/demo/demo.c:216-220 | the first n slots hold the wave's values and the rest of the table is kept |
| DemoPatterns.TableLengthIsWholePeriods | src/hardware/demo/demo.c:191-251 | the table length is a multiple of the 20-sample period, and no larger multiple fits the 1024 slots |
| DemoPatterns.CircularRead | src/hardware/demo/demo.c:688-690 | reading count samples round a table of n entries from pos gives count samples |
| DemoPatterns.CircularReadExtend | src/hardware/demo/demo.c:688-695 | a read continuing where a circular read stopped, without passing the table end, extends that circular read |
| DemoPatterns.FoldAppend | src/hardware/demo/demo.c:700-704 | folding two runs of samples one after the other is folding their concatenation |
| DemoPatterns.FoldFourSamples | src/hardware/demo/demo.c:701-703 | four samples folded into a zero average weigh 1/16, 1/8, 1/4 and 1/2 |
| DemoAnalog.ReadLen | src/hardware/demo/demo.c:688-689 | the entries a call takes: at most what is still to do, never past the table end, and one of the two bounds is met |
| DemoAnalog.FoldLen | src/hardware/demo/demo.c:697-709 | the entries folded: all it may take when everything is averaged, otherwise up to the one that brings num_avgs to avg_samples |
| DemoAnalog.PacketCount | src/hardware/demo/demo.c:687-728 | the samples a call accounts for never exceed what is to do or pass the table end, and are positive when work remains |
| DemoAnalog.PacketOut | src/hardware/demo/demo.c:687-728 | without averaging the table slice; averaging the whole run nothing; otherwise one averaged value |
| DemoAnalog.AfterPacket | src/hardware/demo/demo.c:696-728 | only the average state moves: unchanged without averaging, num_avgs grows by the read when averaging all, reset to zero after a send |
| DemoAnalog.FoldEntries | src/hardware/demo/demo.c:700-709 | folds table entries one at a time until to_avg are folded or num_avgs reaches avg_samples, the average being the fold of exactly those entries |
| DemoAnalog.SendAnalogPacket | src/hardware/demo/demo.c:671-729 | the generator, the values sent and analog_sent are those of AfterPacket, PacketOut and PacketCount |
| DemoAnalog.AveragingOvershootsAsWritten | src/hardware/demo/demo.c:711-716 | averaging the whole run, once the last channel's num_avgs has reached the tick's samples_todo, the send loop as written ends with analog_done past samples_todo (num_avgs + todo when the slice fits), and the tick is unregistered through the mismatch exit with sent_samples unmoved and no end packet, whatever the limits; with the corrected count the tick is counted and kept |
| DemoAnalog.AveragedRound | src/hardware/demo/demo.c:699-716 | a round of calls that fold everything they read leaves every generator readable, as AfterPacket leaves it, with num_avgs grown by the entries it read |
| DemoAnalog.RoundSent | src/hardware/demo/demo.c:799-810 | with the corrected per-channel count, analog_sent after a round is at most what is to do and positive when there are channels and work |
| DemoAnalog.RoundSentIsLargest | src/hardware/demo/demo.c:695 | analog_sent after a round is the largest per-channel count, reached by some channel, and 0 with no channel |
| DemoAnalog.RoundSentSnoc | src/hardware/demo/demo.c:804-808 | one more channel raises analog_sent to its own count if that is larger |
| DemoAnalog.RoundSentUniform | src/hardware/demo/demo.c:687-695 | without averaging every channel of table length N reads the same slice, so the round accounts for min(todo, N - pos mod N) |
| DemoBus.LogicStreamAppend | src/hardware/demo/demo.c:784-797 | consecutive logic chunks of a pattern continue its byte stream |
| DemoBus.ConstantStream | src/hardware/demo/demo.c:661-664 | the all-low and all-high patterns send the same units whatever the step |
| DemoBus.IncLoopAsWritten | src/hardware/demo/demo.c:653-660 | the incremental loop as written stores to every index up to size + unitsize - 2, the last store to index k carrying the low byte of step0 + min(k, size - 1), and advances step once per byte (size times, where there are size / unitsize units); with units of two bytes or more, index size, past a size-byte buffer, is stored |
| DemoBus.AnalogSoFarStart | src/hardware/demo/demo.c:799-810 | before a tick sends anything every analog channel stands where it started |
| DemoBus.ChannelStep | src/hardware/demo/demo.c:805-807 | one send_analog_packet call continues its channel's stream by the count the round moves on |
| DemoBus.ChannelStepPlain | src/hardware/demo/demo.c:687-695 | without averaging the call's slice continues the channel's circular read |
| DemoBus.ChannelStepWhole | src/hardware/demo/demo.c:696-717 | averaging the whole run, the call's slice continues the channel's fold |
| DemoBus.AnalogRoundStep | src/hardware/demo/demo.c:799-810 | one round of send_analog_packet calls moves every analog channel's stream on by the count the round reports |
| DemoBus.RoundValues | src/hardware/demo/demo.c:803-808 | a round adds to each analog channel exactly what its generator handed over |
| DemoBus.RoundPacketsCarry | src/hardware/demo/demo.c:803-808 | a round carries, for each analog channel, exactly its own generator's output |
| DemoBus.RoundPacketsSilent | src/hardware/demo/demo.c:803-808 | a round carries nothing for a channel that is not one of its generators' |
| DemoBus.RoundPacketsAnalog | src/hardware/demo/demo.c:803-808 | a round carries no logic bytes, only analog packets |
| DemoBus.RoundLeavesLogic | src/hardware/demo/demo.c:799-810 | a round leaves the logic stream and its chunking as they were |
| DemoBus.LogicSoFarStep | src/hardware/demo/demo.c:786-797 | a chunk that continues the logic stream where it stands extends it |
| DemoBus.StaticChunk | src/hardware/demo/demo.c:516-519 | a buffer filled with the all-low or all-high byte holds that pattern's units |
| DemoBus.FlushPackets | src/hardware/demo/demo.c:826-836 | one packet per generator, in order |
| DemoBus.FlushCarriesAverage | src/hardware/demo/demo.c:826-836 | the flush carries exactly each analog channel's running average and nothing for any other channel |
| DemoBus.FlushSnoc | src/hardware/demo/demo.c:826-836 | the flush of n generators is the flush of the first n - 1 followed by the last one's average packet |
| DemoBus.FlushHasNoLogic | src/hardware/demo/demo.c:826-836 | the flush carries no logic data |
| Demo.ScanGroupsAreWellFormed | src/hardware/demo/demo.c:298-347 | the groups scan builds hold channels of the device, each group of one kind of channel |
| Demo.ApplyPattern | src/hardware/demo/demo.c:507-529 | each channel in turn takes the logic or analog pattern by its kind; the first channel whose kind has no such pattern stops with SR_ERR_ARG, earlier changes kept |
| Demo.ApplyPatternKeepsOthers | src/hardware/demo/demo.c:507-529 | whatever the outcome, generators outside the group keep their state and the logic pattern moves only if the group holds a logic channel |
| Demo.ApplyPatternKeepsOther | src/hardware/demo/demo.c:507-529 | the generator of a channel outside the group keeps its state |
| Demo.ApplyPatternKeepsLogic | src/hardware/demo/demo.c:509-519 | the logic pattern moves only if the group holds a logic channel |
| Demo.ApplyPatternSucceeds | src/hardware/demo/demo.c:507-529 | the loop succeeds exactly when every channel's kind has the named pattern |
| Demo.ApplyPatternSetsLogicAt | src/hardware/demo/demo.c:509-514 | after success the logic pattern is the new one if the k-th channel is a logic channel |
| Demo.ApplyPatternSetsLogic | src/hardware/demo/demo.c:509-514 | after success the logic pattern is the new one if the group holds a logic channel |
| Demo.ApplyPatternSetsAnalogAt | src/hardware/demo/demo.c:520-526 | after success the k-th channel, if analog, has the new pattern |
| Demo.ApplyPatternSetsAnalog | src/hardware/demo/demo.c:520-526 | after success every analog channel of the group has the new pattern |
| Demo.PatternSetIsNotAtomic | src/hardware/demo/demo.c:507-529 | a group with a logic then an analog channel, given a logic-only name, ends with SR_ERR_ARG but the logic pattern already changed |
| Demo.HomogeneousPatternSetIsAtomic | src/hardware/demo/demo.c:507-529 | for a group of one kind of channel, as scan builds, a failure leaves the state as it was |
| Demo.ApplyAmplitude | src/hardware/demo/demo.c:534-540 | every channel in turn takes the amplitude; the first non-analog channel stops with SR_ERR_ARG |
| Demo.ApplyAmplitudeOnlyAmplitude | src/hardware/demo/demo.c:538-539 | the amplitude loop changes nothing of a generator but its amplitude |
| Demo.ApplyAmplitudeSucceeds | src/hardware/demo/demo.c:534-540 | the loop succeeds exactly when every channel of the group is analog |
| Demo.ApplyAmplitudeKeepsOther | src/hardware/demo/demo.c:534-540 | the generator of a channel outside the group keeps its state |
| Demo.ApplyAmplitudeKeepsOthers | src/hardware/demo/demo.c:534-540 | the generators of channels outside the group keep their state |
| Demo.ApplyAmplitudeSetsAt | src/hardware/demo/demo.c:538-539 | after success the k-th channel has the new amplitude |
| Demo.ApplyAmplitudeSets | src/hardware/demo/demo.c:534-540 | after success every channel of the group is analog with the new amplitude |
| Demo.SetScalar | src/hardware/demo/demo.c:469-487 | the value set reads back; a sample limit clears the time limit and vice versa; no other setting moves |
| Demo.ConfigGet | src/hardware/demo/demo.c:391-449 | no device: SR_ERR_ARG; pattern and amplitude need a group (SR_ERR_CHANNEL_GROUP), amplitude an analog one; unknown keys SR_ERR_NA |
| Demo.ConfigList | src/hardware/demo/demo.c:549-628 | scan and driver options need no device; a group's options follow the kind of its first channel and whether it is the "Analog" group, which has no pattern list |
| Demo.ListedOptionsAreGettable | src/hardware/demo/demo.c:391-449 | every option listed with the GET capability for a device or group can be read there |
| Demo.ListedPatternNames | src/hardware/demo/demo.c:608-621 | the names offered to a group are those of the kind of its first channel |
| Demo.NameListed | src/hardware/demo/demo.c:493-504 | a listed name is found by the table search |
| Demo.ListedPatternsAreAccepted | src/hardware/demo/demo.c:488-530 | every pattern name listed for a group scan built is accepted by config_set for it |
| Demo.LookupPattern | src/hardware/demo/demo.c:491-504 | the name's first index in the logic and in the analog table, or none |
| Demo.PatternTaken | src/hardware/demo/demo.c:507-529 | after a successful change the group's first channel has the new pattern |
| Demo.PatternNamedAfter | src/hardware/demo/demo.c:419-433 | after a successful change by name, config_get of the group reports that name |
| Demo.NameFound | src/hardware/demo/demo.c:493-504 | a name found in a table is the name of the pattern at that index |
| Demo.SendRound | src/hardware/demo/demo.c:800-810 | send_analog_packet for every generator; the round reports the largest count, and the bus gains each generator's packet |
| Demo.RoundLoop | src/hardware/demo/demo.c:800-806 | the loop over the generators leaves each as AfterPacket leaves it, reports RoundSent and yields the present outputs' packets in order |
| Demo.RoundStep | src/hardware/demo/demo.c:802-804 | one send_analog_packet call extends the round's count and packets by generator c's and updates only generator c |
| Demo.SendRoundStep | src/hardware/demo/demo.c:800-810 | one analog round moves on by at least one sample and at most todo, adds no logic and continues every channel's stream |
| Demo.AnalogRound | src/hardware/demo/demo.c:800-810 | one round of calls from sample done of the tick, its packets appended to the stream |
| Demo.SendChunkStep | src/hardware/demo/demo.c:786-797 | a logic chunk extends the logic stream by its bytes and leaves every analog stream unchanged |
| Demo.DemoDevice.Scan | src/hardware/demo/demo.c:255-354 | a new inactive device: 200 kHz, unitsize (n + 7) / 8, sigrok pattern, generators of amplitude 10 cycling through the analog patterns |
| Demo.DemoDevice.DevOpen | src/hardware/demo/demo.c:356-361 | the status becomes ACTIVE, SR_OK |
| Demo.DemoDevice.DevClose | src/hardware/demo/demo.c:363-368 | the status becomes INACTIVE, SR_OK |
| Demo.DemoDevice.FillLogic | src/hardware/demo/demo.c:517-519 | every byte of logic_data is the given value |
| Demo.DemoDevice.SelectLogicPattern | src/hardware/demo/demo.c:514-519 | the logic pattern is set; all-low and all-high fill the buffer with 0x00 or 0xff now |
| Demo.DemoDevice.SelectAnalogPattern | src/hardware/demo/demo.c:525-526 | only generator i's pattern changes |
| Demo.DemoDevice.SetPattern | src/hardware/demo/demo.c:507-529 | the state and result ApplyPattern gives, with the buffer filled for a static logic pattern |
| Demo.DemoDevice.SetAmplitude | src/hardware/demo/demo.c:534-540 | the state and result ApplyAmplitude gives |
| Demo.DemoDevice.SetPatternMode | src/hardware/demo/demo.c:488-530 | no group: SR_ERR_CHANNEL_GROUP; a name in neither table: SR_ERR_ARG; otherwise SetPattern |
| Demo.DemoDevice.SetAmplitudeOf | src/hardware/demo/demo.c:531-541 | no group: SR_ERR_CHANNEL_GROUP; otherwise SetAmplitude |
| Demo.DemoDevice.SetSettings | src/hardware/demo/demo.c:469-487 | the device-wide settings are stored |
| Demo.DemoDevice.ConfigSet | src/hardware/demo/demo.c:451-547 | not ACTIVE: SR_ERR_DEV_CLOSED; device keys as SetScalar; patterns and amplitudes by group; unknown keys SR_ERR_NA |
| Demo.DemoDevice.FillUnits | src/hardware/demo/demo.c:641-647 | the first units x unitsize bytes are the next units of a stepped pattern, step advancing once per unit |
| Demo.DemoDevice.FillRandom | src/hardware/demo/demo.c:649-652 | one rand() call per byte, its low byte stored |
| Demo.DemoDevice.LogicGenerator | src/hardware/demo/demo.c:630-669 | the chunk continues the current pattern's stream; the incremental pattern steps once per unit |
| Demo.DemoDevice.SendLogicChunk | src/hardware/demo/demo.c:786-797 | as many whole units as fit LOGIC_BUFSIZE are generated and sent as one logic packet |
| Demo.DemoDevice.SendSamples | src/hardware/demo/demo.c:781-818 | logic chunks and analog rounds until both counts reach todo (a missing kind counts as done); with the corrected analog count they reach it exactly, so the mismatch branch is not reached; the logic stream continues the pattern by todo units and every analog stream moves on by todo samples |
| Demo.DemoDevice.LogicRound | src/hardware/demo/demo.c:786-796 | one logic chunk of at most LOGIC_BUFSIZE bytes continues the logic stream and leaves every analog channel's stream where it was |
| Demo.DemoDevice.FlushAverages | src/hardware/demo/demo.c:826-836 | one packet per generator carrying its running average |
| Demo.DemoDevice.FinishAcquisition | src/hardware/demo/demo.c:822-839 | averages flushed when avg_samples is 0, then the acquisition stops |
| Demo.DemoDevice.AcquisitionStop | src/hardware/demo/demo.c:872-879 | the tick is unregistered and the end packet sent |
| Demo.DemoDevice.PrepareData | src/hardware/demo/demo.c:732-842 | no samplerate or no channels: stop without data; otherwise the owed samples are sent, counters move on as Tick, and a reached limit flushes and stops |
| Demo.DemoDevice.SendTick | src/hardware/demo/demo.c:758-820 | the samples the pacing owes go on the bus and sent_samples and spent_us move on as Tick |
| Demo.DemoDevice.RegenerateAll | src/hardware/demo/demo.c:860-864 | every generator's table is regenerated at the current samplerate |
| Demo.DemoDevice.AcquisitionStart | src/hardware/demo/demo.c:844-870 | only an open device starts; the count is reset, tables regenerated, the tick registered, the header sent, the clock origin taken |
| Search.FirstIndex | src/hardware/demo/demo.c:493-504 | the index of the first element equal to x, -1 exactly when there is none |
| Search.IndexOf | src/hardware/demo/demo.c:493-504 | the search loop stops at the first match and returns FirstIndex |
| Scanner.Received | src/hardware/serial-dmm/protocol.c:123-132 | a read stores at most the free room of the buffer; an error or no bytes stores nothing |
| Scanner.Scan | src/hardware/serial-dmm/protocol.c:134-150 | the scan ends between where it started and the end of the buffer; what it handled is stated by ScanFound and ScanSkips |
| Scanner.ScanFound | src/hardware/serial-dmm/protocol.c:134-150 | the packets handled are valid, in increasing order, and do not overlap |
| Scanner.ScanSkips | src/hardware/serial-dmm/protocol.c:134-150 | every byte passed over is inside a handled packet or starts an invalid one |
| Scanner.ScanEnds | src/hardware/serial-dmm/protocol.c:135 | the scan stops only with less than a packet left, or right after the one packet a meter without requests takes |
| Scanner.ScanValidStep | src/hardware/serial-dmm/protocol.c:136-146 | at a valid packet the scan handles it and goes on a packet later |
| Scanner.ScanInvalidStep | src/hardware/serial-dmm/protocol.c:147-148 | at an invalid packet the scan moves on one byte |
| Scanner.ScanAtEnd | src/hardware/serial-dmm/protocol.c:135 | with less than a packet left the scan ends where it is |
| Scanner.Report | src/hardware/serial-dmm/protocol.c:41-75 | one measurement packet exactly when the parser set mq, none otherwise |
| Scanner.ReportsMeasurements | src/hardware/serial-dmm/protocol.c:68-74 | every packet sent for handled packets is a measurement with an mq |
| Scanner.Compact | src/hardware/serial-dmm/protocol.c:152-155 | the unscanned bytes move to the front in order and buflen drops by the offset |
| SerialDmm.ReqPacket | src/hardware/serial-dmm/protocol.c:78-109 | no request function: nothing; while req_next_at is set and in the future: nothing; a failed request: its error; otherwise a request, and req_next_at moves on by the timeout when there is one |
| SerialDmm.PacingStep | src/hardware/serial-dmm/protocol.c:140-146 | the pacing after k + 1 packets is one more step from the pacing after k |
| SerialDmm.DelayHoldsRequests | src/hardware/serial-dmm/protocol.c:143-146 | with a request delay, no request is written during a scan |
| SerialDmm.TimeoutRequestsEach | src/hardware/serial-dmm/protocol.c:143-146 | with a timeout and no delay, a request follows every packet |
| SerialDmm.DmmDevice.RequestPacket | src/hardware/serial-dmm/protocol.c:78-109 | the request written and req_next_at as ReqPacket says |
| SerialDmm.DmmDevice.HandlePacket | src/hardware/serial-dmm/protocol.c:41-75 | the reading is sent and the sample count moves on by one only when mq is set |
| SerialDmm.DmmDevice.ScanPackets | src/hardware/serial-dmm/protocol.c:134-150 | the packets Scan finds are handled in order, and requests are paced after each as PacingAfter says |
| SerialDmm.DmmDevice.ScanAt | src/hardware/serial-dmm/protocol.c:136-149 | one turn of the loop: a valid packet is handled and skipped whole, an invalid byte skipped |
| SerialDmm.DmmDevice.TakePacket | src/hardware/serial-dmm/protocol.c:137-146 | one valid packet handled, then req_next_at moved on by the delay and a request attempted |
| SerialDmm.DmmDevice.HandleAt | src/hardware/serial-dmm/protocol.c:137 | handling the packet at offset adds its report to the bus |
| SerialDmm.DmmDevice.PaceAfterPacket | src/hardware/serial-dmm/protocol.c:143-146 | req_next_at pushed on by the delay, then req_packet |
| SerialDmm.DmmDevice.HandleNewData | src/hardware/serial-dmm/protocol.c:111-156 | a failed or empty read changes nothing; otherwise the buffer is topped up, scanned, and keeps exactly the unscanned tail |
| SerialDmm.DmmDevice.ReceiveData | src/hardware/serial-dmm/protocol.c:158-190 | data is handled; on a timeout a failed request ends the source; otherwise the acquisition stops once the limits are reached |
| KernScale.ScaleDevice.HandlePacket | src/hardware/kern-scale/protocol.c:30-59 | the weight is sent and counted only when mq is set |
| KernScale.ScaleDevice.ScanPackets | src/hardware/kern-scale/protocol.c:84-92 | every packet Scan finds is handled in order |
| KernScale.ScaleDevice.ScanAt | src/hardware/kern-scale/protocol.c:86-91 | one turn of the loop: a valid packet handled and skipped, an invalid byte skipped |
| KernScale.ScaleDevice.HandleNewData | src/hardware/kern-scale/protocol.c:61-98 | a failed or empty read changes nothing; otherwise every packet is handled and the kept tail is shorter than a packet |
| KernScale.ScaleDevice.ReceiveData | src/hardware/kern-scale/protocol.c:100-128 | data is handled, the acquisition stops once the limits are reached, and the source is kept |
| Ft2232h.Ft2232hDevice.SendSamples | src/hardware/ft2232h/protocol.c:23-39 | one logic packet of k 1-byte samples; sent plus received stays the same |
| Ft2232h.Ft2232hDevice.ReceiveData | src/hardware/ft2232h/protocol.c:41-87 | a read error stops and ends the source; at the limit exactly the samples up to the limit are sent and the acquisition stops; otherwise everything received is sent |
| RawAnalog.ParseFormatString | src/input/raw_analog.c:73-81 | the index of the named format, -1 exactly when no format has that name |
| RawAnalog.Init | src/input/raw_analog.c:104-142 | SR_ERR_ARG exactly when there is no channel or the format is unknown; a sample is the format's unit size times the channels |
| RawAnalog.ZeroChunkAccepted | src/input/raw_analog.c:169-178 | init accepts a 4104-byte sample, for which the chunk is 0 bytes |
| RawAnalog.ChunkBytes | src/input/raw_analog.c:169-171 | a positive whole number of samples, at most CHUNK_SIZE when a sample fits |
| RawAnalog.ChunkBytesAgree | src/input/raw_analog.c:169-171 | where a sample fits CHUNK_SIZE the chunk is the one the source computes |
| RawAnalog.ChunksEnd | src/input/raw_analog.c:174-178 | the loop stops a whole number of samples on, with at most a chunk left |
| RawAnalog.TailBytes | src/input/raw_analog.c:180-181 | the tail is a whole number of samples that fits the buffer and leaves less than one sample |
| RawAnalog.ChunksPayload | src/input/raw_analog.c:174-178 | the full chunks carry exactly the bytes they pass over, in order |
| RawAnalog.ConsumedWholeSamples | src/input/raw_analog.c:174-196 | every whole sample is consumed and nothing more |
| RawAnalog.BufferPayload | src/input/raw_analog.c:174-186 | the packets carry exactly the consumed prefix, in order |
| RawAnalog.LeftoverUnderOneSample | src/input/raw_analog.c:188-196 | what is kept is shorter than one sample |
| RawAnalog.RawAnalogInput.ProcessBuffer | src/input/raw_analog.c:144-199 | header once, then the chunks and tail, and the buffer keeps only what was not consumed |
| RawAnalog.RawAnalogInput.SendStart | src/input/raw_analog.c:153-167 | header and samplerate on the first call only |
| RawAnalog.RawAnalogInput.SendFullChunks | src/input/raw_analog.c:174-178 | the packets Chunks gives, ending where ChunksEnd says |
| RawAnalog.RawAnalogInput.Receive | src/input/raw_analog.c:201-216 | the first call only appends and marks ready; later calls process the whole buffer |
| RawAnalog.RawAnalogInput.End | src/input/raw_analog.c:218-233 | the rest processed if ready, and SR_DF_END only once started |
| ChronovuLa8.FormatMatch | src/input/chronovu_la8.c:41-51 | SR_OK exactly when the file has the LA8 size |
| ChronovuLa8.Init | src/input/chronovu_la8.c:53-76 | SR_ERR_ARG exactly when numchannels is below 1; the samplerate kept |
| ChronovuLa8.UnitSize | src/input/chronovu_la8.c:107 | the fewest bytes that hold one bit per channel |
| ChronovuLa8.ChunksPayload | src/input/chronovu_la8.c:112-117 | the chunks carry exactly the cut-off buffer, in order |
| ChronovuLa8.ChunksWhole | src/input/chronovu_la8.c:112-117 | with a whole-sample limit every chunk is whole samples |
| ChronovuLa8.Consumed | src/input/chronovu_la8.c:109-110 | the largest multiple of unitsize in the buffer |
| ChronovuLa8.SplitSampleAsWritten | src/input/chronovu_la8.c:112-117 | with 17 channels a 4098-byte buffer goes out as 4096 then 2 bytes, splitting a sample |
| ChronovuLa8.ChunkLimit | src/input/chronovu_la8.c:114 | MAX_CHUNK_SIZE rounded down to whole samples, at least one sample |
| ChronovuLa8.ChunkLimitAgrees | src/input/chronovu_la8.c:114 | where unitsize divides MAX_CHUNK_SIZE the corrected limit is the source's |
| ChronovuLa8.BufferPayload | src/input/chronovu_la8.c:105-118 | the packets carry the consumed prefix byte for byte |
| ChronovuLa8.BufferWholeSamples | src/input/chronovu_la8.c:105-118 | every packet is whole samples, none over MAX_CHUNK_SIZE |
| ChronovuLa8.SentThenKept | src/input/chronovu_la8.c:110-118 | what is sent followed by what is kept is the buffer |
| ChronovuLa8.La8Input.ProcessBuffer | src/input/chronovu_la8.c:78-121 | header once, the whole samples in chunks, the part-sample kept |
| ChronovuLa8.La8Input.SendStart | src/input/chronovu_la8.c:89-103 | header and samplerate on the first call only |
| ChronovuLa8.La8Input.SendChunks | src/input/chronovu_la8.c:112-117 | the chunk packets, in order |
| ChronovuLa8.La8Input.Receive | src/input/chronovu_la8.c:123-138 | the first call only appends and marks ready; later calls process the buffer |
| ChronovuLa8.La8Input.End | src/input/chronovu_la8.c:140-155 | the rest processed if ready, and SR_DF_END only once started |
| ChronovuLa8.La8Input.Reset | src/input/chronovu_la8.c:157-165 | not started and the buffer empty, the ready flag kept |
| Korad.Next | src/hardware/korad-kaxxxxp/protocol.c:295-323 | the target after a reply: a measured quantity or a set limit leads back into the current, voltage, status cycle, a switch to status |
| Korad.PollCycle | src/hardware/korad-kaxxxxp/protocol.c:295-323 | from any target, after at most one step, three more steps come back to the same one, visiting current, voltage and status |
| Korad.Flag | src/hardware/korad-kaxxxxp/protocol.c:105-120 | a switch is written as 1 when on and 0 when off |
| Korad.QueryCommand | src/hardware/korad-kaxxxxp/protocol.c:161-186 | IOUT1?, ISET1?, VOUT1?, VSET1? or STATUS? by target; none for the targets that cannot be queried |
| Korad.Queries | src/hardware/korad-kaxxxxp/protocol.c:199-205 | the queries of the first k targets in enum order |
| Korad.ReplyLength | src/hardware/korad-kaxxxxp/protocol.c:219-242 | one byte for status and output, five characters otherwise |
| Korad.DecodeStatus | src/hardware/korad-kaxxxxp/protocol.c:257-272 | constant-current modes from bits 0 and 1 clear, OCP bit 5, output bit 6, beep always on, OVP from bit 7 only while the output is on |
| Korad.DecodeEncode | src/hardware/korad-kaxxxxp/protocol.c:257-272 | decoding the byte of a supply's flags gives the flags back when the beeper is on and OVP is visible or unchanged |
| Korad.EncodeDecode | src/hardware/korad-kaxxxxp/protocol.c:257-272 | the bits the decode reads survive decoding and encoding again |
| Korad.ProcessingWait | src/hardware/korad-kaxxxxp/protocol.c:67-78 | the wait that makes 80 ms pass since the last request, none when they have passed |
| Korad.Elapsed | src/hardware/korad-kaxxxxp/protocol.c:387 | the time since the request modulo 2^64, as uint64_t subtraction gives it |
| Korad.Sample | src/hardware/korad-kaxxxxp/protocol.c:353-367 | a current or a voltage packet for those two targets, nothing for any other |
| Korad.KoradDevice.SetCommand | src/hardware/korad-kaxxxxp/protocol.c:91-145 | ISET1, VSET1, OUT, BEEP, OCP, OVP, SAV or RCL with the stored value; none for the measured quantities or a program outside 1..5 |
| Korad.KoradDevice.SetValue | src/hardware/korad-kaxxxxp/protocol.c:80-152 | refused with SR_ERR and nothing written when there is no command; otherwise the command is written, the request time taken and no reply awaited |
| Korad.KoradDevice.QueryValue | src/hardware/korad-kaxxxxp/protocol.c:154-192 | the target's query is written and a reply awaited even when the write failed; no query: SR_ERR and nothing written |
| Korad.KoradDevice.StoreStatus | src/hardware/korad-kaxxxxp/protocol.c:257-272 | the flags become DecodeStatus of the status byte |
| Korad.KoradDevice.GetReply | src/hardware/korad-kaxxxxp/protocol.c:210-293 | a failed read changes nothing; otherwise a number goes to the target's field or the status byte to the flags, and the reply is no longer pending |
| Korad.KoradDevice.HandleReply | src/hardware/korad-kaxxxxp/protocol.c:344-368 | the reply stored, Sample of the target sent, only voltages counted, and the target moves on as Next |
| Korad.KoradDevice.CheckLimitsAndTimeout | src/hardware/korad-kaxxxxp/protocol.c:379-395 | at the limits the acquisition stops; otherwise an active device drops a reply pending more than 500 ms |
| Korad.KoradDevice.ReceiveData | src/hardware/korad-kaxxxxp/protocol.c:325-396 | data: HandleReply; a timeout with no reply pending sends the query, and a failed query returns before the limits are checked |
| Korad.KoradDevice.GetAllValues | src/hardware/korad-kaxxxxp/protocol.c:194-208 | the queries of the targets from current to status go out in order until the first failed write or read, whose error is returned |
| Korad.KoradDevice.FetchAll | src/hardware/korad-kaxxxxp/protocol.c:199-205 | the loop's writes are Queries of the targets it reached |
| Korad.KoradDevice.FetchStep | src/hardware/korad-kaxxxxp/protocol.c:201-204 | one target queried and its reply read |
| Korad.KoradDevice.FetchRead | src/hardware/korad-kaxxxxp/protocol.c:199-204 | the read's status is returned; a successful read clears reply_pending and moves the target on to the next query |
| Korad.Kept | src/hardware/korad-kaxxxxp/protocol.c:385-391 | a pending reply is kept unless the device is active and more than 500 ms passed |
| Korad.FreshQueryKept | src/hardware/korad-kaxxxxp/protocol.c:371-391 | a query sent in this callback is not given up in the same callback |
| Korad.StaleReplyDropped | src/hardware/korad-kaxxxxp/protocol.c:385-391 | past 500 ms (and short of the 64-bit wrap) an active acquisition gives the reply up |
| HungChang.Find | src/hardware/hung-chang-dso-2100/api.c:304-347 | the first index of an equal element, -1 when there is none or the value is not of the table's type |
| HungChang.FindInArray | src/hardware/hung-chang-dso-2100/api.c:315-346 | the search loops return Find |
| HungChang.ReverseMap | src/hardware/hung-chang-dso-2100/api.c:349-355 | the first index of the byte in the table, or -1 |
| HungChang.TriggerSourceIndex | src/hardware/hung-chang-dso-2100/api.c:379-386 | the trigger source named by bits 6-7 of the control byte, -1 for the unlisted combination |
| HungChang.VdivIndex | src/hardware/hung-chang-dso-2100/api.c:396-408 | the range named by bits 0, 1, 4 and 5, or -1 |
| HungChang.CouplingIndex | src/hardware/hung-chang-dso-2100/api.c:409-420 | the coupling named by bits 2-3, or -1 |
| HungChang.TriggerSourceIndexSearch | src/hardware/hung-chang-dso-2100/api.c:380-381 | the trigger field reading is what reverse_map finds for cctl[0] & 0xC0 |
| HungChang.VdivIndexSearch | src/hardware/hung-chang-dso-2100/api.c:400-401 | the range reading is what reverse_map finds for cctl & 0x33 |
| HungChang.CouplingIndexSearch | src/hardware/hung-chang-dso-2100/api.c:413-414 | the coupling reading is what reverse_map finds for cctl & 0x0C |
| HungChang.TriggerSourceRoundTrip | src/hardware/hung-chang-dso-2100/api.c:460-468 | writing source i reads back as i and keeps the range and coupling bits |
| HungChang.VdivRoundTrip | src/hardware/hung-chang-dso-2100/api.c:485-501 | writing range i reads back as i and keeps the coupling and trigger bits |
| HungChang.VdivsMapBits | src/hardware/hung-chang-dso-2100/api.c:82-84 | every range code lies inside the 0x33 field |
| HungChang.CouplingRoundTrip | src/hardware/hung-chang-dso-2100/api.c:502-514 | writing coupling i reads back as i and keeps the range and trigger bits |
| HungChang.UnusedCombinations | src/hardware/hung-chang-dso-2100/api.c:91-105 | 0xC0 is the only trigger field and 0x0C the only coupling field no table entry names |
| HungChang.Get | src/hardware/hung-chang-dso-2100/api.c:357-432 | SR_OK exactly when a value is returned; VDIV, coupling and probe factor without a group: SR_ERR_CHANNEL_GROUP |
| HungChang.Set | src/hardware/hung-chang-dso-2100/api.c:447-531 | a refused value changes nothing; each key changes only its own setting; unknown keys SR_ERR_NA; per-channel keys need a group |
| HungChang.SetThenGet | src/hardware/hung-chang-dso-2100/api.c:357-531 | every value config_set accepts is what config_get then reports |
| HungChang.CctlWriteIsolated | src/hardware/hung-chang-dso-2100/api.c:466-512 | writing one control-byte field keeps the readings of the other two fields |
| HungChang.SetIsolated | src/hardware/hung-chang-dso-2100/api.c:447-531 | setting one key leaves every other key's reading alone on every channel |
| HungChang.TriggerSourceSetIsolated | src/hardware/hung-chang-dso-2100/api.c:460-468 | setting the trigger source changes no other key's reading |
| HungChang.VdivSetIsolated | src/hardware/hung-chang-dso-2100/api.c:485-501 | setting the range changes no other key's reading |
| HungChang.CouplingSetIsolated | src/hardware/hung-chang-dso-2100/api.c:502-514 | setting the coupling changes no other key's reading |
| HungChang.FieldWriteIsolated | src/hardware/hung-chang-dso-2100/api.c:449-525 | the keys with a setting of their own change no other key's reading |
| HungChang.ChannelBit | src/hardware/hung-chang-dso-2100/api.c:542 | the channel's bit is 0x01 or 0x02 |
| HungChang.ChannelSet | src/hardware/hung-chang-dso-2100/api.c:533-552 | enabling fails with SR_ERR exactly when another channel is on, changing nothing; otherwise the channel's bit follows enabled, no other bit moves, and at most one bit stays set |
| HungChang.EnableLeavesOne | src/hardware/hung-chang-dso-2100/api.c:540-546 | after a successful enable only that channel's bit is set |
| HungChang.Defaults | src/hardware/hung-chang-dso-2100/api.c:154-171 | the settings a scanned device starts with are valid |
| HungChang.DefaultReadings | src/hardware/hung-chang-dso-2100/api.c:154-171 | a new device reports frame limit 0, 100 MHz and a 1000-sample buffer |
| HungChang.DefaultTriggerReadings | src/hardware/hung-chang-dso-2100/api.c:160-162 | a new device triggers on the falling edge of channel A |
| HungChang.DefaultChannelReadings | src/hardware/hung-chang-dso-2100/api.c:158-161 | each channel of a new device reports 1 V/div, DC and probe factor 10 |
| HungChang.Dso2100.Config | src/hardware/hung-chang-dso-2100/api.c:357-432 | the settings config_get reads are valid |
| HungChang.Dso2100.constructor | src/hardware/hung-chang-dso-2100/api.c:136-171 | inactive, no channel enabled, the default settings |
| HungChang.Dso2100.ConfigGet | src/hardware/hung-chang-dso-2100/api.c:357-432 | the status and value Get gives on the device's settings |
| HungChang.Dso2100.ReadField | src/hardware/hung-chang-dso-2100/api.c:379-420 | the reverse_map cases: the field reading or SR_ERR |
| HungChang.Dso2100.ConfigSet | src/hardware/hung-chang-dso-2100/api.c:434-531 | SR_ERR_DEV_CLOSED and no change unless active; otherwise the status and settings Set gives |
| HungChang.Dso2100.StoreDeviceKey | src/hardware/hung-chang-dso-2100/api.c:449-484 | the device-wide keys as Set |
| HungChang.Dso2100.StoreChannelKey | src/hardware/hung-chang-dso-2100/api.c:485-525 | the per-channel keys as Set |
| HungChang.Dso2100.StoreSamplerate | src/hardware/hung-chang-dso-2100/api.c:452-459 | a listed rate's index stored, an unlisted one refused |
| HungChang.Dso2100.StoreTriggerSlope | src/hardware/hung-chang-dso-2100/api.c:469-476 | a listed slope's index stored, an unlisted one refused |
| HungChang.Dso2100.StoreBufferSize | src/hardware/hung-chang-dso-2100/api.c:477-484 | a listed size's index stored, an unlisted one refused |
| HungChang.Dso2100.StoreField | src/hardware/hung-chang-dso-2100/api.c:460-514 | one control-byte field rewritten as Set says |
| HungChang.Dso2100.StoreProbeFactor | src/hardware/hung-chang-dso-2100/api.c:515-525 | 0 refused with SR_ERR_ARG, any other factor stored for the channel |
| HungChang.Dso2100.ConfigChannelSet | src/hardware/hung-chang-dso-2100/api.c:533-552 | the status and channel mask ChannelSet gives |
| SysclkLwla.AllChannels | src/hardware/sysclk-lwla/api.c:79 | (1 << n) - 1 has exactly the bits of channels 0..n-1 |
| SysclkLwla.CapBit | src/hardware/sysclk-lwla/api.c:380 | each capability bit lies outside SR_CONF_MASK |
| SysclkLwla.HasDevopt | src/hardware/sysclk-lwla/api.c:375-385 | TRUE exactly when some device-option word answers the query |
| SysclkLwla.AnswersMeaning | src/hardware/sysclk-lwla/api.c:380 | a word answers key \| cap exactly when its key part is key and it carries the capability |
| SysclkLwla.Defaults | src/hardware/sysclk-lwla/api.c:74-79 | the settings of a new instance are valid |
| SysclkLwla.Lookup | src/hardware/sysclk-lwla/api.c:451-467 | the index of the equal entry, -1 exactly when the value is not a listed string |
| SysclkLwla.Read | src/hardware/sysclk-lwla/api.c:405-445 | a value exactly on SR_OK; an unhandled key or an index past its table: SR_ERR_BUG |
| SysclkLwla.Get | src/hardware/sysclk-lwla/api.c:389-446 | a key not listed with GET: SR_ERR_NA; listed and handled: SR_OK |
| SysclkLwla.Write | src/hardware/sysclk-lwla/api.c:488-541 | a samplerate is accepted exactly inside [last, first] of the table, else SR_ERR_SAMPLERATE; the limits exactly up to their maxima, else SR_ERR_ARG; names exactly when listed; a refusal changes nothing, and only the key's own setting moves |
| SysclkLwla.Set | src/hardware/sysclk-lwla/api.c:471-542 | a key not listed with SET: SR_ERR_NA and no change; a refusal changes nothing |
| SysclkLwla.SetThenGet | src/hardware/sysclk-lwla/api.c:389-542 | an accepted value is what config_get then reports |
| SysclkLwla.SetIsolated | src/hardware/sysclk-lwla/api.c:488-541 | setting one key leaves every other key's reading as it was |
| SysclkLwla.DefaultReadings | src/hardware/sysclk-lwla/api.c:74-79 | a new device reports the fastest samplerate, no limits and RLE on |
| SysclkLwla.DefaultClockReadings | src/hardware/sysclk-lwla/api.c:74-79 | a new device reports the internal clock, rising clock edge and trigger slope, and channel triggering |
| SysclkLwla.Choices | src/hardware/sysclk-lwla/api.c:711-739 | choices exactly on SR_OK; an unhandled key SR_ERR_BUG |
| SysclkLwla.List | src/hardware/sysclk-lwla/api.c:673-740 | without a device only the scan and device options are listed, others SR_ERR_ARG; with one a key not listed with LIST is SR_ERR_NA |
| SysclkLwla.DeviceChoices | src/hardware/sysclk-lwla/api.c:708-739 | SR_ERR_NA exactly when the model does not list the key with LIST; otherwise the choices |
| SysclkLwla.ListedSamplerateAccepted | src/hardware/sysclk-lwla/api.c:490-494 | with a descending samplerate table, every listed samplerate is accepted |
| SysclkLwla.ListedNameAccepted | src/hardware/sysclk-lwla/api.c:515-535 | every name listed for a string key is accepted and read back |
| SysclkLwla.ChannelSet | src/hardware/sysclk-lwla/api.c:546-573 | SR_ERR_BUG exactly for an index outside the channels, with no change; on an enable change the channel's bit follows enabled and no other bit moves |
| SysclkLwla.ChannelSetUndo | src/hardware/sysclk-lwla/api.c:562-570 | enabling then disabling a channel restores the mask |
| SysclkLwla.ChannelSetIdempotent | src/hardware/sysclk-lwla/api.c:562-570 | repeating a request changes nothing more |
| SysclkLwla.Fold | src/hardware/sysclk-lwla/api.c:601-633 | the match loop stores masks or fails with SR_ERR_BUG or SR_ERR_ARG |
| SysclkLwla.FoldSticky | src/hardware/sysclk-lwla/api.c:605-633 | once a prefix of the matches fails, the whole stage fails the same way |
| SysclkLwla.Prepare | src/hardware/sysclk-lwla/api.c:577-639 | no trigger or no stage keeps the masks; more than one stage SR_ERR_ARG |
| SysclkLwla.FoldRejects | src/hardware/sysclk-lwla/api.c:605-624 | a stage fails exactly when some enabled match has a bad index or condition |
| SysclkLwla.FoldFirstBad | src/hardware/sysclk-lwla/api.c:614-624 | a stage fails with the status of its first bad match, the index check first |
| SysclkLwla.FoldMasks | src/hardware/sysclk-lwla/api.c:625-632 | bit j of the trigger mask is set exactly when an enabled match is on channel j, of the value mask when one asks for ONE or RISING, of the edge mask when one asks for RISING or FALLING |
| SysclkLwla.FoldMasksNested | src/hardware/sysclk-lwla/api.c:630-632 | value and edge bits only on channels of the trigger mask |
| SysclkLwla.LwlaDevice.constructor | src/hardware/sysclk-lwla/api.c:66-96 | inactive, the default settings, every channel enabled, masks clear |
| SysclkLwla.LwlaDevice.ConfigGet | src/hardware/sysclk-lwla/api.c:389-446 | the status and value Get gives |
| SysclkLwla.LwlaDevice.ReadSetting | src/hardware/sysclk-lwla/api.c:405-445 | the status and value Read gives |
| SysclkLwla.LwlaDevice.LookupIndex | src/hardware/sysclk-lwla/api.c:451-467 | the index Lookup gives |
| SysclkLwla.LwlaDevice.ConfigSet | src/hardware/sysclk-lwla/api.c:471-542 | the status and settings Set gives |
| SysclkLwla.LwlaDevice.WriteSetting | src/hardware/sysclk-lwla/api.c:488-541 | the status and settings Write gives |
| SysclkLwla.LwlaDevice.StoreIndex | src/hardware/sysclk-lwla/api.c:515-535 | the three name keys as Write |
| SysclkLwla.WriteIndex | src/hardware/sysclk-lwla/api.c:515-535 | a name key stores the index lookup_index finds in its own setting, or fails with SR_ERR_ARG and changes nothing |
| SysclkLwla.LwlaDevice.ConfigList | src/hardware/sysclk-lwla/api.c:673-740 | the status and value List gives |
| SysclkLwla.LwlaDevice.DeviceList | src/hardware/sysclk-lwla/api.c:708-739 | the status and value DeviceChoices gives |
| SysclkLwla.LwlaDevice.ListChoices | src/hardware/sysclk-lwla/api.c:711-739 | the status and value Choices gives |
| SysclkLwla.LwlaDevice.ConfigChannelSet | src/hardware/sysclk-lwla/api.c:546-573 | the status and mask ChannelSet gives |
| SysclkLwla.LwlaDevice.PrepareTriggerMasks | src/hardware/sysclk-lwla/api.c:577-639 | the masks are kept, replaced or left on failure as Prepare says |
| SysclkLwla.LwlaDevice.ConfigCommit | src/hardware/sysclk-lwla/api.c:643-669 | not active: SR_ERR_DEV_CLOSED; acquiring: SR_ERR; then the trigger masks and the FPGA result |
| SysclkLwla.LwlaDevice.AcquisitionStop | src/hardware/sysclk-lwla/api.c:758-773 | not active: SR_ERR_DEV_CLOSED; otherwise a stop is requested while the capture is not idle, once |
| SysclkLwla.LwlaDevice.Close | src/hardware/sysclk-lwla/api.c:339-370 | already closed: SR_OK; during an acquisition only a stop is requested and SR_ERR_BUG returned; otherwise inactive with the shutdown result |
| AsixSigma.SerialFamilies | src/hardware/asix-sigma/api.c:97-106 | a serial is accepted exactly when its upper 16 bits are 0xa601 (SIGMA) or 0xa602 (SIGMA2) |
| AsixSigma.ScanDefaults | src/hardware/asix-sigma/api.c:110-117 | the first samplerate, no time limit, 50 % capture ratio, no firmware loaded |
| AsixSigma.Get | src/hardware/asix-sigma/api.c:181-207 | no device: SR_ERR; otherwise a value exactly for samplerate, time limit and capture ratio, SR_ERR_NA for the rest |
| AsixSigma.SamplesToMsecRounding | src/hardware/asix-sigma/api.c:235-238 | while the product does not wrap, the time limit is the samples' duration rounded down to a millisecond |
| AsixSigma.Set | src/hardware/asix-sigma/api.c:209-251 | not active: SR_ERR_DEV_CLOSED; a time limit of 0 and a ratio over 100 refused with SR_ERR; a sample limit stored as a time; a refusal changes nothing |
| AsixSigma.SetThenGet | src/hardware/asix-sigma/api.c:181-251 | an accepted value reads back; a sample limit reads back as its time limit |
| AsixSigma.CaptureRatioStaysBounded | src/hardware/asix-sigma/api.c:239-245 | a ratio over 100 is refused and no setting ever holds one |
| AsixSigma.List | src/hardware/asix-sigma/api.c:253-287 | a list exactly for device options, samplerates and trigger matches, SR_ERR_NA otherwise |
| AsixSigma.GetAgreesWithDevopts | src/hardware/asix-sigma/api.c:45-51 | config_get answers exactly the keys devopts lists with GET |
| AsixSigma.ListAgreesWithDevopts | src/hardware/asix-sigma/api.c:45-51 | besides DEVICE_OPTIONS, config_list answers exactly the keys devopts lists with LIST |
| AsixSigma.SetAgreesWithDevopts | src/hardware/asix-sigma/api.c:45-51 | every key devopts lists with SET is handled by config_set |
| AsixSigma.PinFrom | src/hardware/asix-sigma/api.c:322-325 | the first set pin from i on among pins 0..7, or 8 |
| AsixSigma.TriggerPin | src/hardware/asix-sigma/api.c:321-325 | the lowest of bits 0..7 set in rising \| falling, 8 when none is |
| AsixSigma.FastTriggerSelectFields | src/hardware/asix-sigma/api.c:327-332 | the low three bits carry the pin (8 reads as 0), bit 3 is set exactly for a falling edge, and the LED bit above |
| AsixSigma.ClockFractionDivides | src/hardware/asix-sigma/api.c:367-375 | up to 50 MHz the fraction is at least 0, 50 MHz / (fraction + 1) is at least the rate and / (fraction + 2) below it; a divisor of 50 MHz is met exactly |
| AsixSigma.PostTriggerFits | src/hardware/asix-sigma/api.c:378-380 | for a ratio up to 100 the value fits 8 bits and grows with the ratio |
| AsixSigma.TriggerWrites | src/hardware/asix-sigma/api.c:315-341 | at 100 MHz and above the 0x81 write and the pin select; above 50 MHz and below 100 nothing and 0; at 50 MHz and below the trigger LUT and both LED bits |
| AsixSigma.ClockWrite | src/hardware/asix-sigma/api.c:355-376 | 0xf0 exactly at 200 MHz, 0x00 exactly at 100 MHz, the 50 MHz divider otherwise |
| AsixSigma.OpenFailureReportsSuccess | src/hardware/asix-sigma/api.c:152-159 | a failed open returns 0 (SR_OK), the same as success, and leaves the device closed |
| AsixSigma.Open | src/hardware/asix-sigma/api.c:144-164 | SR_OK exactly when the device became active, which is exactly when the USB open succeeded |
| AsixSigma.SigmaDevice.constructor | src/hardware/asix-sigma/api.c:110-131 | initializing, with the scan defaults, nothing written |
| AsixSigma.SigmaDevice.DevOpen | src/hardware/asix-sigma/api.c:144-164 | the status and device state Open gives |
| AsixSigma.SigmaDevice.DevClose | src/hardware/asix-sigma/api.c:166-179 | always SR_OK and inactive |
| AsixSigma.SigmaDevice.ConfigGet | src/hardware/asix-sigma/api.c:181-207 | the status and value Get gives |
| AsixSigma.SigmaDevice.ConfigSet | src/hardware/asix-sigma/api.c:209-251 | the status and settings Set gives |
| AsixSigma.SigmaDevice.AcquisitionStart | src/hardware/asix-sigma/api.c:289-394 | not active: SR_ERR_DEV_CLOSED with the trigger masks kept; a failed trigger conversion SR_ERR; after a successful one the device holds the converted rising and falling masks; a failed 200 kHz fallback its status; otherwise trigger writes from those masks, clock, post-trigger and mode writes in order, the header sent and capture begun |
| AsixSigma.SigmaDevice.StartCapture | src/hardware/asix-sigma/api.c:312-394 | the registers are written in the order StartWrites gives, the header is sent, and the capture starts at the given time |
| AsixSigma.SigmaDevice.TriggerStage | src/hardware/asix-sigma/api.c:314-353 | the writes and trigger-select value TriggerWrites gives |
| AsixSigma.SigmaDevice.ClockStage | src/hardware/asix-sigma/api.c:355-376 | the clock-select write ClockWrite gives for the rate |
| AsixSigma.SigmaDevice.AcquisitionStop | src/hardware/asix-sigma/api.c:396-406 | SR_OK, idle, the source removed |
| ChronovuLa.Decimal | src/hardware/chronovu-la/api.c:329 | "%d" of a number: at least one character, all decimal digits |
| ChronovuLa.DecimalRoundTrip | src/hardware/chronovu-la/api.c:329 | reading back what "%d" printed gives the number |
| ChronovuLa.ConnStringParses | src/hardware/chronovu-la/api.c:326-331 | the CONN string is the bus, one dot, the address, each readable back |
| ChronovuLa.Get | src/hardware/chronovu-la/api.c:316-342 | CONN needs a device with a USB connection, else SR_ERR_ARG; SAMPLERATE a device, else SR_ERR_BUG; other keys SR_ERR_NA |
| ChronovuLa.Set | src/hardware/chronovu-la/api.c:344-377 | not active: SR_ERR_DEV_CLOSED; a failed samplerate call SR_ERR; a zero limit SR_ERR_ARG; unknown keys SR_ERR_NA; a refusal changes nothing |
| ChronovuLa.SetThenGet | src/hardware/chronovu-la/api.c:316-377 | the samplerate set reads back, each limit leaves the other alone, and a stored limit is never 0 unless it was |
| ChronovuLa.List | src/hardware/chronovu-la/api.c:379-435 | scan and device options need no device; samplerate, sample range and trigger matches need one (SR_ERR_BUG); the sample range is 0 to the model's limit; the matches the profile's count |
| ChronovuLa.SampleLimitHalves | src/hardware/chronovu-la/api.c:413-422 | the LA16's sample range is half the LA8's, rounded down |
| ChronovuLa.WordRoundTrip | src/hardware/chronovu-la/api.c:529-534 | the high and low byte of a word put back together give the word |
| ChronovuLa.ParamPacketDecodes | src/hardware/chronovu-la/api.c:519-536 | 4 bytes on the LA8 and 8 on the LA16, byte 1 always 0xff, every parameter recoverable, each LA16 trigger word high byte first |
| ChronovuLa.Blocks | src/hardware/chronovu-la/api.c:484-485 | the n SDRAM blocks, in order |
| ChronovuLa.ReceiveStep | src/hardware/chronovu-la/api.c:461-489 | a failed read stops with the end packet; otherwise the counter counts the block, and the last block sends every block then stops |
| ChronovuLa.RunCollectsAllBlocks | src/hardware/chronovu-la/api.c:461-489 | from counter 0 the first NUM_BLOCKS - 1 reads send nothing, the next sends every block in order and the end packet |
| ChronovuLa.ChronovuDevice.constructor | src/hardware/chronovu-la/api.c:85-123 | initializing, the profile's highest rate, no limits, no trigger, counters at 0 |
| ChronovuLa.ChronovuDevice.DevOpen | src/hardware/chronovu-la/api.c:243-296 | a failing ftdi_new leaves no context and gives SR_ERR; a negative code from the open, the purge or the flow-control call is returned with the context freed and the status unchanged; otherwise the device is active, SR_OK for a zero flow-control code and a positive one returned with the context freed |
| ChronovuLa.ChronovuDevice.DevClose | src/hardware/chronovu-la/api.c:298-314 | always SR_OK; an active device becomes inactive |
| ChronovuLa.ChronovuDevice.ConfigGet | src/hardware/chronovu-la/api.c:316-342 | the status and value Get gives |
| ChronovuLa.ChronovuDevice.ConfigSet | src/hardware/chronovu-la/api.c:344-377 | the status and settings Set gives |
| ChronovuLa.ChronovuDevice.FillParams | src/hardware/chronovu-la/api.c:519-536 | the buffer's first n bytes are ParamPacket |
| ChronovuLa.ChronovuDevice.AcquisitionStart | src/hardware/chronovu-la/api.c:492-560 | not active: SR_ERR_DEV_CLOSED; no FTDI: SR_ERR_BUG; no divider or trigger: SR_ERR; a short write SR_ERR; otherwise the packet written, the header sent, the counter reset and the source added |
| ChronovuLa.ChronovuDevice.SendParams | src/hardware/chronovu-la/api.c:538-559 | the packet is written whatever happens; only a write of all ParamLength bytes sends the header, sets the deadline, resets the counter and trigger flag and adds the source, anything else is SR_ERR with nothing sent |
| ChronovuLa.ChronovuDevice.ParamBytes | src/hardware/chronovu-la/api.c:519-539 | the bytes handed to cv_write are ParamPacket of the device's model, divider and trigger words |
| ChronovuLa.ChronovuDevice.Launch | src/hardware/chronovu-la/api.c:548-557 | the header is queued, the deadline is (divcount + 1) times the trigger constant plus now plus ten seconds, and the counter, trigger flag and source are set |
| ChronovuLa.ChronovuDevice.AcquisitionStop | src/hardware/chronovu-la/api.c:562-569 | SR_OK, the source removed, the end packet sent |
| ChronovuLa.ChronovuDevice.SendBlocks | src/hardware/chronovu-la/api.c:484-485 | every block in order |
| ChronovuLa.ChronovuDevice.ReceiveData | src/hardware/chronovu-la/api.c:437-490 | no FTDI: FALSE with nothing sent; otherwise the step ReceiveStep gives |
| DslogicDefs.StartFlagsDistinct | src/hardware/fx2lafw/dslogic.h:34-36 | the stop, 48 MHz and sample-wide flags are the distinct single bits 7, 6 and 5 |
| DslogicDefs.OpModeValue | src/hardware/fx2lafw/dslogic.h:38-44 | each operation mode's value is below 5 |
| DslogicDefs.OpModeValueInjective | src/hardware/fx2lafw/dslogic.h:38-44 | two modes have the same value exactly when they are the same mode |
| DslogicDefs.CfgDecodes | src/hardware/fx2lafw/dslogic.h:73 | with both parts below 256 the header fits 16 bits, the variable in the high byte and the word count in the low |
| DslogicDefs.CfgPadDecodes | src/hardware/fx2lafw/dslogic.h:74 | the padded header holds the plain header in its upper half and 0xffff in its lower |
| DslogicDefs.HeaderWidths | src/hardware/fx2lafw/dslogic.h:76-92 | the mode and global-trigger headers are 0x0001 and 0x0701, fitting their 16-bit fields; the divider, count and trigger-position headers are padded and announce two words |
| DslogicDefs.SyncWordsDistinct | src/hardware/fx2lafw/dslogic.h:75-93 | the start and end sync words differ from each other and from every header |
| DslogicDefs.ConfigHasNoPadding | src/hardware/fx2lafw/dslogic.h:95-141 | every member sits at its natural alignment, sizeof is 480 bytes and the announced length is 240 words |
| DslogicDefs.TriggerHeaderWordCounts | src/hardware/fx2lafw/dslogic.h:83-92 | a 16-bit trigger block is the 16 words its header announces, while a 32-bit count block holds 32 words under a header announcing 16 |
| Dslogic.StartFlags | src/hardware/fx2lafw/dslogic.c:137-140 | every bit of the logic-analyzer mode is kept, and SAMPLE_WIDE is set exactly when samples are 16-bit or the mode already had it |
| Dslogic.StartIsNotStop | src/hardware/fx2lafw/dslogic.c:137-161 | when the logic-analyzer mode leaves bit 7 clear, the start bytes never have the stop flag and differ from the stop bytes |
| Dslogic.Le3RoundTrip | src/hardware/fx2lafw/dslogic.c:209-213 | a length below 2^24 is rebuilt from its three bytes; 240 words go out as [0xf0, 0, 0] |
| Dslogic.ModeWord | src/hardware/fx2lafw/dslogic.c:236-254 | at most one test-mode bit, the clock, edge, rate, filter and RLE bits as set, every other bit clear |
| Dslogic.AtMostOneTestMode | src/hardware/fx2lafw/dslogic.c:237-242 | at most one of bits 13, 14 and 15 is set |
| Dslogic.ModeWordRoundTrip | src/hardware/fx2lafw/dslogic.c:236-254 | every setting the mode word carries is read back from it |
| Dslogic.DividerIsCeiling | src/hardware/fx2lafw/dslogic.c:258 | the divider is the smallest whose rate does not exceed the requested rate |
| Dslogic.Count | src/hardware/fx2lafw/dslogic.c:260 | the count field is below 2^32: the sample limit itself when it fits, a smaller value when it does not |
| Dslogic.DslogicDevice.FillMode | src/hardware/fx2lafw/dslogic.c:133-140 | the flags StartFlags gives and two zero delay bytes |
| Dslogic.DslogicDevice.StartAcquisition | src/hardware/fx2lafw/dslogic.c:129-152 | the start command with StartFlags is sent; a failed transfer SR_ERR, else SR_OK |
| Dslogic.DslogicDevice.StopAcquisition | src/hardware/fx2lafw/dslogic.c:154-173 | the start command with the stop flag is sent; a failed transfer SR_ERR, else SR_OK |
| Dslogic.DslogicDevice.FillLength | src/hardware/fx2lafw/dslogic.c:210-213 | the three length bytes, least significant first |
| Dslogic.DslogicDevice.BuildModeWord | src/hardware/fx2lafw/dslogic.c:236-254 | the one-bit-at-a-time construction gives ModeWord of the device's settings |
| Dslogic.DslogicDevice.WriteHeaders | src/hardware/fx2lafw/dslogic.c:189-207 | the sync words and every header written over the stack contents, nothing else changed |
| Dslogic.DslogicDevice.FpgaConfigure | src/hardware/fx2lafw/dslogic.c:175-272 | the length is announced first (a failure SR_ERR, nothing sent after); then the record, and SR_OK exactly when the whole record went out |
| Dslogic.ConfigRecordIsConfigured | src/hardware/fx2lafw/dslogic.c:189-262 | the record sent has both sync words and every header in place, the mode word, divider, count and trigger position 50, and the trigger values as the stack held them |
| ScpiPps.MeasuredPrefixMembers | src/hardware/scpi-pps/api.c:126-128 | a pci entry among the first i is measured exactly when the profile has its command |
| ScpiPps.ChannelList | src/hardware/scpi-pps/api.c:123-139 | one channel per output and measured quantity: the number of outputs times the number of measured quantities |
| ScpiPps.ChannelListLayout | src/hardware/scpi-pps/api.c:123-139 | the channel for output c and the i-th measured quantity sits at c * m + i, has that index, the quantity's prefix followed by the output's name cut to 15 characters, and that quantity on output c |
| ScpiPps.ChannelName | src/hardware/scpi-pps/api.c:129-130 | the name written into the 16-byte buffer is the prefix followed by the output's name, cut to its first 15 characters when longer |
| ScpiPps.ChannelListIndexes | src/hardware/scpi-pps/api.c:131-137 | every channel's index is its position, its output is one of the profile's, its hwname is that output's name and its quantity is a measured one |
| ScpiPps.ProbeChannels | src/hardware/scpi-pps/api.c:122-139 | the nested loop with its running index builds exactly ChannelList of the measured pci entries |
| ScpiPps.ProbeRow | src/hardware/scpi-pps/api.c:126-138 | the inner loop for one output appends exactly that output's Row: one channel per measured pci entry, with consecutive indexes from the running ch_idx |
| ScpiPps.OnOutputMembers | src/hardware/scpi-pps/api.c:148-153 | a channel is collected for output j exactly when it is in the list and belongs to output j |
| ScpiPps.GroupScanMembers | src/hardware/scpi-pps/api.c:145-155 | a group holds exactly the channels whose output's bit is set in the mask, among the outputs scanned |
| ScpiPps.CollectOutput | src/hardware/scpi-pps/api.c:148-153 | the walk over the channel list appends the channels of output j in list order |
| ScpiPps.BitStep | src/hardware/scpi-pps/api.c:145 | shifting the walking mask bit moves it to the next output |
| ScpiPps.GroupScanStep | src/hardware/scpi-pps/api.c:145-155 | one more bit of the scan adds the channels of output j exactly when the mask selects it |
| ScpiPps.GroupChannels | src/hardware/scpi-pps/api.c:145-155 | the 64-step scan with a walking mask bit gives the group's members as GroupScan |
| ScpiPps.Groups | src/hardware/scpi-pps/api.c:141-159 | one channel group per group spec |
| ScpiPps.BuildGroups | src/hardware/scpi-pps/api.c:141-159 | the loop over the group specs builds exactly Groups, name, members and features in order |
| ScpiPps.GetQueryInjective | src/hardware/scpi-pps/api.c:276-338 | every key config_get serves has its own query command |
| ScpiPps.RigolNotationAccepts | src/hardware/scpi-pps/api.c:344-364 | a regulation reply is accepted exactly when it is one of CV, CC, UR, VOLT, CURR; the Rigol words pass unchanged |
| ScpiPps.Get | src/hardware/scpi-pps/api.c:240-367 | SR_ERR_ARG without a device, SR_ERR_NA for a key with no query; otherwise the channel is selected unless the profile's device options hold the key as a bare word (an entry with capability bits does not match), the query is sent, and the reply and return code come back, a regulation reply translated and SR_ERR_DATA when it is not a regulation word or not a string |
| ScpiPps.GetIgnoresGroupForDevopts | src/hardware/scpi-pps/api.c:254-272 | a key whose bare word is among the device options is read as if no channel group were given, and no channel is selected |
| ScpiPps.GetKeepsGroupForCapabilityWords | src/hardware/scpi-pps/api.c:254-272 | an option word carrying capability bits is not equal to the key, so the group is kept and its channel selected before the query |
| ScpiPps.SetKeysReadBack | src/hardware/scpi-pps/api.c:369-451 | every key config_set serves is one config_get reads back, as a boolean for the switches and a double for the values |
| ScpiPps.Set | src/hardware/scpi-pps/api.c:369-451 | SR_ERR_ARG without a device, SR_ERR_DEV_CLOSED when not open, SR_ERR_NA for a key it does not set, else the command with its value and scpi_cmd's return code |
| ScpiPps.SetSwitchesBothWays | src/hardware/scpi-pps/api.c:389-443 | a switch has an enable and a disable command, and they differ |
| ScpiPps.ChannelConfigNamesOrder | src/hardware/scpi-pps/api.c:488-505 | each of Independent, Series and Parallel is listed exactly when its feature is set, once each, Independent first and Parallel last |
| ScpiPps.Options | src/hardware/scpi-pps/api.c:465-486 | the option list has one entry per key, in order |
| ScpiPps.SpecOfGroupAsWrittenOverruns | src/hardware/scpi-pps/api.c:523-552 | on a two-output supply measuring voltage and current, the second output's group holds channels 2 and 3, both past the two-entry channel table, while the output-index read gives the second output's spec |
| ScpiPps.SpecOfGroupIsOwnOutput | src/hardware/scpi-pps/api.c:523-552 | the corrected read gives the spec of the output the channel was created for |
| ScpiPps.List | src/hardware/scpi-pps/api.c:453-561 | scan options and the driver's device options without a device; SR_ERR_ARG for other keys then; the profile's raw device-option words, capability bits included, with and without a group, the channel configurations, the group output's ranges, and SR_ERR_NA for any other key |
| ScpiPps.MeasureCommandMatchesPci | src/hardware/scpi-pps/api.c:587-596 | the measure command of a quantity is the pci entry's command for it, and a quantity outside pci has none |
| ScpiPps.ChannelsAreMeasurable | src/hardware/scpi-pps/api.c:587-596 | every channel the probe creates has a measure command that the profile has, so acquisition never takes the SR_ERR branch for it |
| ScpiPps.BeeperRestored | src/hardware/scpi-pps/api.c:174-223 | open disables the beeper exactly when it found it on, and close re-enables it exactly then; neither does the other's job |
| ScpiPps.PpsDevice.Probe | src/hardware/scpi-pps/api.c:44-167 | the channels are ChannelList of the measured quantities, the groups are Groups over them, and LOCAL is sent |
| ScpiPps.PpsDevice.DevOpen | src/hardware/scpi-pps/api.c:174-202 | SR_ERR with nothing changed when the device is not inactive or the open fails; else active, REMOTE sent, and the beeper disabled and remembered exactly when it was on |
| ScpiPps.PpsDevice.DevClose | src/hardware/scpi-pps/api.c:204-223 | SR_ERR_DEV_CLOSED when not open; with a connection the beeper is restored, LOCAL sent and the device inactive; without one nothing changes |
| ScpiPps.PpsDevice.ConfigGet | src/hardware/scpi-pps/api.c:240-367 | the status, data and commands of Get on the profile's raw option words: the group is dropped only for a bare-word entry |
| ScpiPps.PpsDevice.ConfigSet | src/hardware/scpi-pps/api.c:369-451 | the status and commands of Set for this device |
| ScpiPps.PpsDevice.AcquisitionStart | src/hardware/scpi-pps/api.c:563-600 | SR_ERR_DEV_CLOSED when not open; the source's error; then the header, a negative code from the select returned, SR_ERR for a quantity with no command, else the first channel's measure query and SR_OK |
| ScpiPps.PpsDevice.AcquisitionStop | src/hardware/scpi-pps/api.c:602-623 | SR_ERR_DEV_CLOSED when not open; else the source is removed and the end of the stream sent |

## Left out

- USB, serial, FTDI and SCPI transport calls are not modelled: open, close, reads, writes, control and bulk transfers, and firmware upload. Their outcomes, and the bytes a read returns, are arguments.
- Device discovery and scan plumbing are not modelled: USB list walking, ID probing, model matching, and the retry and sleep loops. A scanned device is built from its profile or model parameters.
- The values `rand()` returns are a function parameter. The model states which calls a pattern consumes, not what the values are.
- Floating-point sample values are not computed: sine, triangle, sawtooth, amplitude and offset, the hung-chang probe factor, and korad's number formatting and `strtod`. The analog tables are an opaque `wave` parameter, and a value read from an instrument is an argument.
- The monotonic clock and `gettimeofday` are a `now` argument. Sleeping is not modelled.
- GLib containers are replaced by Dafny values. The demo generators' hash table is a sequence in channel order, lists are sequences, GVariant is the `Common.Variant` datatype, and a GString is a byte sequence.
- raw_analog's `reset` is not modelled: it frees the module state and then writes to it (`src/input/raw_analog.c:274-275`).
- hung-chang's config_list, config_commit and acquisition code are not modelled. Only its lookups, get / set and channel enable are.
- sysclk-lwla's dev_acquisition_start delegates to lwla_start_acquisition, and the driver's protocol.c is not part of this model.
- SysclkLwla.Get, SysclkLwla.Set and SysclkLwla.ChannelSet, and the LwlaDevice methods over them: the `if (!sdi) return SR_ERR_ARG;` guards of config_get, config_set and config_channel_set (`src/hardware/sysclk-lwla/api.c:397`, `:480`, `:552`) are not modelled; every call is made on a device instance, so the NULL-instance case does not arise in the model.
- The constants that live in headers outside the core are parameters or fields of a model value:
  - the SR_CONF key bits and SR_CONF_MASK;
  - sysclk-lwla's model table and MAX_LIMIT_*;
  - chronovu-la's NUM_BLOCKS and MAX_NUM_SAMPLES;
  - asix-sigma's LEDSEL bits and samplerate table;
  - DS_START_FLAGS_MODE_LA;
  - the DMM and scale buffer sizes;
  - the scpi-pps profiles.
- korad's MQ values for the status and output channels come from libsigrok.h, which is not part of this model. Fixed distinct constants stand in for them.
- The dslogic trigger arrays hold uninitialised stack contents in the code. They are an input, and the record is shown to carry them unchanged.
- The dslogic VTH command (`dslogic_set_vth`) and firmware upload are not modelled. They are transport only.
- The dslogic divider is the integer ceiling of 100 MHz over the rate, in place of the code's floating-point `ceil`. The two agree for every positive integer rate.
- Dslogic.Count: the contract pins the count only when the sample limit fits 32 bits. Above that it says only that the count is smaller, not which low 32 bits are kept.
- scpi-pps: the status the SCPI scan leaves on a new instance is outside the model, which starts the device inactive.
- ScpiPps.Get: a regulation reply that is not a string (a failed read) is reported as SR_ERR_DATA; the code passes it to `g_variant_get_string` and `strcmp` (`src/hardware/scpi-pps/api.c:341-363`) without a check, which the model does not follow.
- scpi-pps's `select_channel`, `scpi_cmd` and `scpi_cmd_resp` are inputs, and the commands they would send are recorded in a log. The float that dev_acquisition_stop reads back is not modelled.
- ScpiPps.List reads the ranges of the group's own output. The code reads the channel table at the channel's global index; that discrepancy is under Findings.
- The demo's final flush for `avg_samples == 0` is modelled as written: it also fires when averaging is off.
- SwLimits.Limits.UpdateSamplesRead: samples_read is a uint64 in the code; the model's count is unbounded, so a wrap after 2^64 samples is not modelled.
- Std.Driver.DevList: requires an initialised driver. The code (`src/std.c:346-351`) reads `di->context` without a check, although its documentation promises NULL upon errors; a call without a context would dereference NULL and is not modelled.
- Demo.DemoDevice.Scan: requires at most 32768 logic channels, so that a unit fits the 4096-byte logic buffer. With more, `LOGIC_BUFSIZE / logic_unitsize` is 0 (`src/hardware/demo/demo.c:788`), so prepare_data's send loop never advances and the tick never returns; that configuration is not modelled.
- Demo.DemoDevice.SendTick: sent_samples (uint64) and spent_us (int64) are unbounded in the model: a wrap of sent_samples past 2^64 and a signed overflow of spent_us (undefined in C) are not modelled. The uint64 products of `src/hardware/demo/demo.c:760`, `:767` and `:779` are modelled with their wrap (DemoPacing.LimitUs, SamplesFor and UsFor). The samples are sent by SendSamples, with its corrected counts.
- Demo.DemoDevice.PrepareData: runs on SendTick and so on the corrected analog count. While the whole run is averaged (`avg_samples == 0`), the model counts every tick and keeps it registered; the code instead leaves a later tick through the "Sample count mismatch" exit, unregistered, without moving sent_samples and without the end packet (DemoAnalog.AveragingOvershootsAsWritten).
- Demo.DemoDevice.SendSamples: the analog rounds use the corrected count (DemoAnalog.PacketCount) and end exactly at todo; the code's count on the averaging path is the running num_avgs, which can pass todo. The incremental logic pattern uses the corrected generator (Demo.DemoDevice.LogicGenerator): with units wider than one byte the code stores other bytes, and past the buffer (DemoBus.IncLoopAsWritten).
- Demo.RoundLoop: reports RoundSent over the corrected per-channel count; the code leaves the last channel's running num_avgs in analog_sent on the averaging path.
- DemoAnalog.SendAnalogPacket: analog_sent is raised to the corrected PacketCount; on the averaging path the code stores the channel's running num_avgs (`src/hardware/demo/demo.c:711-716`), which is not reset between ticks while the whole run is averaged (DemoAnalog.AnalogDoneAsWritten follows that count).
- DemoAnalog.RoundSent: at most what is to do only for the corrected count; with `avg_samples == 0` the code's analog_sent can pass it.
- RawAnalog.RawAnalogInput.ProcessBuffer: cuts full chunks with the corrected ChunkBytes, at least one sample. With samples larger than 4096 bytes the code's chunk is 0 and its loop sends empty packets forever (RawAnalog.ZeroChunkAccepted); the model sends one sample per packet there.
- RawAnalog.RawAnalogInput.SendFullChunks: the loop uses the corrected ChunkBytes, as ProcessBuffer does.
- ChronovuLa8.La8Input.ProcessBuffer: cuts packets at ChunkLimit, the whole samples that fit 4096 bytes. The code cuts at 4096 bytes whatever the unit size (ChronovuLa8.SplitSampleAsWritten), so for unit sizes that do not divide 4096 its packets differ.
- ChronovuLa8.La8Input.SendChunks: the loop uses the corrected ChunkLimit, as ProcessBuffer does.
- AsixSigma.SigmaDevice.DevOpen: returns the corrected Open's SR_ERR when `ftdi_usb_open_desc` fails; the code returns SR_OK there (AsixSigma.OpenFailureReportsSuccess).
- AsixSigma.SigmaDevice.AcquisitionStart: sigma_convert_trigger lives in the driver's protocol.c, which is not part of this model; its status and the rising and falling masks it fills are arguments, and the masks left behind by a failed conversion are not stated.
- DemoPacing.SamplesForIsCeiling: holds only while todo_us x rate + 999999 fits 64 bits; past that the code's product wraps and the count falls short (DemoPacing.SamplesForWraps).
- DemoPacing.UsForIsFloor: holds only while n x 10^6 stays below 2^63; past that the code's uint64 product wraps.
- DemoPacing.CoverWithinOnePeriod: holds only while the owed window times the rate stays below 2^63 - 10^6, for the same reason.
- DemoPacing.UnlimitedTickTracksClock: holds only while the owed window times the rate stays below 2^63 - 10^6, for the same reason.
- DemoPacing.TimeLimitStops: holds only for limits whose microseconds fit an int64 and owed windows whose product with the rate does; a limit whose product wraps negative is ignored by the code (DemoPacing.WrappedTimeLimitIgnored).
- DemoPacing.KiloHertzTick: holds only for limits of L ms with L x 10^6 below 2^63 (about 292 years).
- DemoPacing.KiloHertzRunSendsExactly: holds only for limits of L ms with L x 10^6 below 2^63, as KiloHertzTick.

## Findings

| source | as written | input that shows it | evidently intended | confidence | as-written member | corrected member |
|---|---|---|---|---|---|---|
| src/hardware/demo/demo.c:711-716 | while averaging the whole run, `*analog_sent` is set to the channel's running `num_avgs`, which is never reset between ticks | `avg_samples == 0`, 10 samples per tick: on the second tick `num_avgs` is 20 for a tick of 10, so `analog_done` passes `samples_todo` and the tick quits with "Sample count mismatch" without ever sending the end packet | report the samples folded in this tick | not executed | DemoAnalog.AveragingOvershootsAsWritten | DemoAnalog.PacketCount |
| src/hardware/demo/demo.c:653-660 | the incremental pattern stores to `logic_data[i + j]` for every byte offset `i < size`, so it overruns the buffer whenever a unit has more than one byte | 9 to 16 logic channels (2-byte units) and a full 4096-byte chunk: byte 4096 is written | one value per unit, written to each byte of that unit | not executed | DemoBus.IncLoopAsWritten | Demo.DemoDevice.LogicGenerator |
| src/input/raw_analog.c:169-178 | the full-chunk size is CHUNK_SIZE rounded down to whole samples, which is 0 when one sample is larger than 4096 bytes | 513 channels of FLOAT64_LE (4104-byte samples): the chunk is 0, so the loop sends empty packets and never advances | at least one sample per chunk | not executed | RawAnalog.ZeroChunkAccepted | RawAnalog.ChunkBytes |
| src/input/chronovu_la8.c:112-117 | packets are cut at 4096 bytes whatever the unit size, so a sample can straddle two packets | 17 channels (3-byte units) and a 4098-byte buffer: the packets are 4096 and 2 bytes, and the first ends inside a sample | packets of whole samples | not executed | ChronovuLa8.SplitSampleAsWritten | ChronovuLa8.BufferWholeSamples |
| src/hardware/asix-sigma/api.c:152-159 | dev_open returns 0 (SR_OK) when `ftdi_usb_open_desc` fails | a failed open: the caller sees SR_OK while the device stays inactive | an error code when the open fails | not executed | AsixSigma.OpenFailureReportsSuccess | AsixSigma.Open |
| src/hardware/scpi-pps/api.c:523-552 | config_list reads the channel table at `ch->index`, the global channel index, instead of the channel's output | two outputs, both measuring voltage and current, and a group for the second output: its channels have indexes 2 and 3, both past the two-entry table | the spec of the channel's own output (`hw_output_idx`) | not executed | ScpiPps.SpecOfGroupAsWrittenOverruns | ScpiPps.SpecOfGroupIsOwnOutput |
