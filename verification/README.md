# Verification of the on-board computer software

This project models the OBC flight software (telemetry dispatcher, command queue, fault
detector, serializers, command handler, main loop) and proves what its interleavings and whole
runs guarantee. `dafny verify dfyconfig.toml` checks everything.

## How it is organised

Each concurrent component is described twice. A step machine (`DispatcherModel`,
`CommandQueueModel`) says what every critical section and every access to an atomic does to the
state; its theorems quantify over all event sequences, that is over all interleavings of any
number of threads. A class (`TelemetryDispatcher`, `CommandQueue`) holds the fields of the C++
class and has its methods, loops included; each method is proved to take exactly the steps of the
machine, so the theorems hold of the code. `dispatchLoop` and `popWait` run against an arbitrary
schedule of what the other threads do between any two of their own steps.

- `Numeric`, `Wrappers`, `Sequences`: machine integers with wrap-around, IEEE comparison with NaN
  and infinities, options and results, order-preserving selection.
- `TelemetryFrame`, `SatelliteConfig`: the plain records.
- `DispatcherModel`, `TelemetryDispatcher`: producers, background thread, start and stop.
- `CommandQueueModel`, `CommandQueue`: producers, blocked, woken and polling consumers, the
  condition variable with spurious wakeups and deadlines (section 33.5.3 of ISO/IEC 14882:2017).
- `FaultDetector`, `FlagTracking`: the events of a frame, main's callback, the flags as a function
  of the history.
- `Simulation`, `SimulationBounds`: `generateFrame`, the frames of a run, exact bounds.
- `Json`, `TelemetrySerializer`, `CommandDeserializer`: JSON values, what dumping and reading back
  does to them (a number that is not finite becomes null, section 6 of RFC 8259), the two codecs.
- `CommandHandler`, `CommandPipeline`: the dispatch table against its registration log, and the way
  of an uplink text to its handler.
- `Downlink`, `FlightComputer`: the main function over all of these, and what the ground sees.

What comes from outside is a parameter: what `socket`, the thread constructor and
`sendUdp` return, the clock, the sines, the scheduler's choices, which waiter `notify_one` picks.

## Where the code differs from what is written about it

- `include/command/CommandHandler.h:39` promises REJECTED on every deserialization failure. A
  `json::type_error` is neither a `std::invalid_argument` nor a `std::runtime_error` and escapes
  from `dispatchRaw`; `TypeErrorEscapes` says exactly for which texts.
- `include/serialization/CommandDeserializer.h:34` speaks of an opcode allowlist. It is applied
  after the number has been narrowed to a byte: `OpcodeIsNarrowed` and `OpcodeBeyondAByte`.
- `start` sets `m_running` before it creates the thread. If that creation throws, `m_running`
  stays set without a thread to join until the next `stop`: `RunningMeansJoinable` has the exact
  condition.
- `stop` does not drain the queue in general: `ShutdownResidue` and `StopTakesExactly` say exactly
  what stays behind, and `SteadyProducerBlocksStop` why a busy producer can keep it waiting.
- A reading that is NaN passes every threshold unnoticed: `NaNIsNeverReported`.

## Model

| member | source | states |
|---|---|---|
| DispatcherModel.LifecycleHolds | src/telemetry/TelemetryDispatcher.cpp:27-62 | The lifecycle invariant over socket, flag, thread and control position holds after every interleaving of calls and thread steps. |
| DispatcherModel.ThreadAndSocketAreSafe | src/telemetry/TelemetryDispatcher.cpp:41-107 | In every reachable state: sendUdp runs on an open socket, the socket changes only without a live thread, no second thread is created while one is joinable, and between calls m_running says whether the socket is open. |
| DispatcherModel.RunningMeansJoinable | src/telemetry/TelemetryDispatcher.cpp:41-62 | Between calls m_running holds iff a thread is joinable, except exactly after a start whose thread creation threw and before the next stop. |
| DispatcherModel.AcceptedFramesFlowInOrder | src/telemetry/TelemetryDispatcher.cpp:31-88 | From any state on, pending frames then accepted frames equal processed frames then pending frames: no loss, duplication or reordering, restarts included. |
| DispatcherModel.FifoHistory | src/telemetry/TelemetryDispatcher.cpp:31-88 | From the start, accepted frames are the processed ones, then the one in flight, then the queue, in every reachable state. |
| DispatcherModel.LeftoverGoesFirst | src/telemetry/TelemetryDispatcher.cpp:41-88 | Frames left in the queue while no thread exists are processed first and in order by whatever later start. |
| DispatcherModel.HistoryIsOrdered | src/telemetry/TelemetryDispatcher.cpp:31-88 | Accepted and refused frames keep the order of the attempts; sent and failed ones keep the order of processing. |
| DispatcherModel.FramesAreConserved | src/telemetry/TelemetryDispatcher.cpp:31-88 | As multisets, attempted frames are the refused, sent, failed, in-flight and queued ones. |
| DispatcherModel.CountersCount | src/telemetry/TelemetryDispatcher.cpp:31-86 | framesSent counts successful sends, framesDropped counts refusals of producers plus failures of the background thread, both modulo 2^64. |
| DispatcherModel.CounterConservation | src/telemetry/TelemetryDispatcher.cpp:31-88 | Below the wrap-around, attempts equal framesSent + framesDropped + queue length + frames in flight in every reachable state. |
| DispatcherModel.QueueIsBounded | src/telemetry/TelemetryDispatcher.cpp:31-39 | The queue never exceeds the configured depth. |
| DispatcherModel.EnqueueAnswersByDepth | src/telemetry/TelemetryDispatcher.cpp:31-39 | At any point of any run a frame handed to enqueue is accepted at the end of the queue iff fewer than depth accepted frames are neither processed nor in flight, and otherwise refused and counted as dropped; nothing else changes or decides it. |
| DispatcherModel.AnswersDecide | src/telemetry/TelemetryDispatcher.cpp:78-85 | In any run each processed frame had exactly one answer of sendUdp; the sent frames are exactly those it confirmed and the failed ones exactly the others. |
| DispatcherModel.ShutdownResidue | src/telemetry/TelemetryDispatcher.cpp:54-88 | Whenever no drain is under way, the queue is exactly what was accepted since a background thread last found it empty, or since the beginning. |
| DispatcherModel.DeliveryTakesExactly | src/telemetry/TelemetryDispatcher.cpp:64-88 | While running and without new frames, everything pending is processed after an exact number of thread turns, not earlier. |
| DispatcherModel.StopTakesExactly | src/telemetry/TelemetryDispatcher.cpp:54-88 | With m_running cleared and no producer the thread exits after an exact number of turns linear in the queue; the queue is stranded whole iff the thread was caught before its test, else emptied. |
| DispatcherModel.ProducersDelayStop | src/telemetry/TelemetryDispatcher.cpp:54-88 | With producers, the thread has exited after that many turns plus two per accepted frame. |
| DispatcherModel.SteadyProducerBlocksStop | src/telemetry/TelemetryDispatcher.cpp:65-87 | For every n there is a schedule with 2n turns after m_running was cleared that leaves the thread in its inner loop. |
| TelemetryDispatcher.TelemetryDispatcher.constructor | src/telemetry/TelemetryDispatcher.cpp:24-25 | A new dispatcher is in the initial state of the machine. |
| TelemetryDispatcher.TelemetryDispatcher.Enqueue | src/telemetry/TelemetryDispatcher.cpp:31-39 | Takes the enqueue step; succeeds iff the queue was not full; success means the frame is at the end of the queue, refusal that it is counted as dropped and nothing else changed. |
| TelemetryDispatcher.TelemetryDispatcher.Start | src/telemetry/TelemetryDispatcher.cpp:41-52 | Takes the three start steps; succeeds iff it was not running and got a socket and a thread; queue and counters survive every outcome; a failed socket leaves it stopped, a failed thread leaves it marked running without a thread. |
| TelemetryDispatcher.TelemetryDispatcher.TakeFrame | src/telemetry/TelemetryDispatcher.cpp:71-77 | The critical section of the loop hands out the oldest frame or reports the queue empty, as one step of the run. |
| TelemetryDispatcher.TelemetryDispatcher.SendAndCount | src/telemetry/TelemetryDispatcher.cpp:78-85 | As one step of the run, puts the text of the frame on the downlink and counts it as sent iff sendUdp succeeded, else counts it as dropped. |
| TelemetryDispatcher.TelemetryDispatcher.DispatchLoop | src/telemetry/TelemetryDispatcher.cpp:64-88 | Under any schedule of the other threads the nested loops take exactly the steps of the machine and deliver the encodings of its sent frames. |
| TelemetryDispatcher.TelemetryDispatcher.Stop | src/telemetry/TelemetryDispatcher.cpp:54-62 | Ends joined, closed and stopped; changes nothing when already stopped; leaves the queue whole or empty depending on where the thread stood; the run is extended by exactly its steps. |
| TelemetryDispatcher.TelemetryDispatcher.JoinThread | src/telemetry/TelemetryDispatcher.cpp:57 | join returns after exactly the predicted number of turns. |
| TelemetryDispatcher.TelemetryDispatcher.Destroy | src/telemetry/TelemetryDispatcher.cpp:27-29 | Destruction leaves no joinable thread and no open socket. |
| CommandQueueModel.LinearizesToBoundedFifo | src/command/CommandQueue.cpp:8-35 | Over any concurrent run, every push and pop gets the answer of a sequential bounded FIFO at its deciding critical section, accepted commands are the delivered ones followed by the queue, and the depth is respected. |
| CommandQueueModel.NoWakeupIsLost | src/command/CommandQueue.cpp:8-35 | In every reachable state, if some consumer is blocked, the queued commands are no more than the woken consumers. |
| CommandQueueModel.NobodySleepsNextToACommand | src/command/CommandQueue.cpp:16-27 | A reachable state without woken consumers has an empty queue or nobody blocked. |
| CommandQueueModel.OneWakeupPerPush | src/command/CommandQueue.cpp:8-14 | Without spurious wakeups and deadlines there are never more woken consumers than accepted pushes: a push wakes one, a refused push none. |
| CommandQueueModel.WokenConsumersSettle | src/command/CommandQueue.cpp:16-27 | Letting the woken consumers run in any order delivers the queue in order to the first ones, sends the rest back or home, and ends with none woken and no one blocked next to a command. |
| CommandQueueModel.DeadlineEndsTheCall | src/command/CommandQueue.cpp:16-27 | After its deadline a waiting popWait returns at its next turn with the mutex whatever happens before it, empty-handed iff the queue is empty then. |
| CommandQueueModel.DeadlineDecidesTheCall | src/command/CommandQueue.cpp:16-27 | In terms of the schedule alone: a call still waiting when its thread gets the mutex returns if its deadline is in the schedule, empty-handed iff the queue is empty; it returns empty-handed only then; without a deadline and on an empty queue it goes on waiting. |
| CommandQueue.CommandQueue.Push | src/command/CommandQueue.cpp:8-14 | Takes the push step: succeeds iff the queue was not full, appends the command and releases the one waiter that notify_one picks; refusal changes nothing. |
| CommandQueue.CommandQueue.TryPop | src/command/CommandQueue.cpp:29-35 | Takes the oldest command off the queue, or nothing iff it is empty. |
| CommandQueue.CommandQueue.PopWait | src/command/CommandQueue.cpp:16-27 | Under any schedule of the other threads takes exactly the steps of the monitor; returns the head of the queue, or nullopt iff it is empty, at its last step; returns at the latest when it gets the mutex after a Timeout of its own in the schedule, and nullopt only after one. |
| CommandQueue.CommandQueue.TestAgain | src/command/CommandQueue.cpp:18-26 | A woken consumer leaves with the oldest command if there is one, empty-handed iff there is none and its deadline has passed, and blocks again otherwise. |
| CommandQueue.CommandQueue.Empty | src/command/CommandQueue.cpp:37-40 | True iff no command is queued. |
| CommandQueue.CommandQueue.Size | src/command/CommandQueue.cpp:42-45 | The narrowing to uint32_t returns the true length. |
| FaultDetector.EventsAreOrderedViolations | src/health/FaultDetector.cpp:9-78 | At most four events per frame, codes strictly increasing, each measured value strictly beyond the threshold it is paired with. |
| FaultDetector.EventsAreExactlyTheViolations | src/health/FaultDetector.cpp:15-78 | A code is fired iff the frame violates the corresponding threshold, NaN and infinities included. |
| FaultDetector.EventsQuoteReadings | src/health/FaultDetector.cpp:15-78 | Each event quotes the reading of the frame and the threshold of the configuration that its text speaks of, and the reading is strictly beyond it; a voltage below the minimum is never reported as above the maximum. |
| FaultDetector.LastEventIsTop | src/health/FaultDetector.cpp:9-78 | The last event of a frame carries the greatest violated code. |
| FaultDetector.QuietIffInRange | src/health/FaultDetector.cpp:15-78 | For finite values no event fires iff all four monitored values are in range. |
| FaultDetector.NaNIsNeverReported | src/health/FaultDetector.cpp:15-56 | A NaN reading fires no event whatever the thresholds. |
| FaultDetector.FaultMonitor.OnFault | src/main.cpp:136-150 | The callback updates the captured flags for one event and latches safe mode on overloads. |
| FaultDetector.FaultDetector.Evaluate | src/health/FaultDetector.cpp:9-13 | Delivers exactly the events of the frame to the callback, in order; without a callback nothing happens. |
| FaultDetector.FaultDetector.CheckBattery | src/health/FaultDetector.cpp:15-35 | Fires exactly the battery event of the frame, if any. |
| FaultDetector.FaultDetector.CheckTemperature | src/health/FaultDetector.cpp:37-56 | Fires exactly the temperature event of the frame, if any. |
| FaultDetector.FaultDetector.CheckResources | src/health/FaultDetector.cpp:58-78 | Fires the CPU event before the memory event, each iff exceeded. |
| FlagTracking.UpdatedOutcome | src/main.cpp:136-150 | One iteration raises fault_active iff the frame violates, latches safe mode, and stores the greatest violated code or keeps the old one. |
| FlagTracking.FlagsRefineHistory | src/main.cpp:189-202 | For every history, frame i is emitted with fault_active iff it violates, safe_mode iff some frame so far overloaded, last_fault_code the greatest code of the latest violating frame, all else unchanged. |
| FlagTracking.SafeModeIsLatched | src/main.cpp:145-148 | Once a frame carries safe mode all later ones do. |
| Simulation.FlightIsEmission | src/main.cpp:189-202 | The loop with stale flags passed to generateFrame and a wrapping frame counter emits the same frames as the flag-free history. |
| Simulation.FlightIsNumbered | src/main.cpp:29-66 | Frame i carries the number i modulo 2^64 and only finite readings. |
| Simulation.FlightReadings | src/main.cpp:38-59 | For every frame of every flight: name, timestamp and uptime are the inputs; all readings are in their ranges; current, solar input and charge are fixed functions of the voltage; solar input is 0 iff the cycle is not positive; each temperature follows its own phase. |
| Simulation.RangesAreReached | src/main.cpp:45-54 | The ranges of the readings are exact: both ends of each are reached at the extremes of the sines (the current minimum at zero). |
| Simulation.LoadsDriftAndReset | src/main.cpp:56-58 | Along a flight the loads climb by one per frame and fall back to 30 and 40 after 89 and 84, and when frame_id wraps. |
| SimulationBounds.ExactSafeModeEntry | src/main.cpp:57-58 | For all thresholds and runs of any length, frame i carries safe mode iff i has reached cpuMax-29 (if cpuMax <= 88) or memMax-39 (if memMax <= 83), cut off at 0. |
| SimulationBounds.FaultFreeIffCovered | src/main.cpp:45-58 | No frame of any run reports a fault, whatever the sines, iff the thresholds cover the simulated ranges. |
| SimulationBounds.CoveredRunStaysClear | src/main.cpp:45-58 | Under such thresholds fault_active and safe_mode stay false and last_fault_code stays 0. |
| SimulationBounds.DefaultRunIsFaultFree | include/SatelliteConfig.h:35-40 | The default thresholds are of this kind. |
| Json.DumpedIsStable | src/serialization/TelemetrySerializer.cpp:80-86 | Dumping again what was read back from a dump gives the same value. |
| Json.UnsignedAccessors | src/serialization/CommandDeserializer.cpp:31-33 | The accessors for uint8_t, uint32_t and uint64_t yield n iff n is congruent to the integer, the truncation of the number, or the 0 or 1 of the boolean (not for 64 bits). |
| TelemetrySerializer.RoundTrip | src/serialization/TelemetrySerializer.cpp:9-78 | Decoding an encoded frame returns the frame if all six doubles are finite and fails with a type error otherwise. |
| TelemetrySerializer.EncodingIsInjective | src/serialization/TelemetrySerializer.cpp:9-41 | Different finite frames have different texts. |
| TelemetrySerializer.WireFormat | src/serialization/TelemetrySerializer.cpp:9-41 | The datagram of a frame is the one value that has the sixteen fields at their paths, as integers, string, booleans, and numbers or null if not finite, and no other key in any of its objects. |
| TelemetrySerializer.ReadsExactly | src/serialization/TelemetrySerializer.cpp:43-78 | Any text is read as a frame iff it is JSON and each of the sixteen leaves is at its path and converts to the field; other keys do not matter. |
| TelemetrySerializer.FailsAtFirstLeaf | src/serialization/TelemetrySerializer.cpp:43-78 | Reading fails with the parse error iff the text is not JSON, and otherwise as the first leaf, in order, that is missing or of the wrong type. |
| TelemetrySerializer.ToJson | src/serialization/TelemetrySerializer.cpp:9-41 | Growing the tree in place yields the encoding, with exactly the sixteen leaves of the wire format. |
| TelemetrySerializer.FromJson | src/serialization/TelemetrySerializer.cpp:43-78 | Field-by-field reading with early failure: a frame comes from its sixteen leaves, an error from the first one that cannot be read. |
| TelemetrySerializer.BatchToJson | src/serialization/TelemetrySerializer.cpp:80-86 | The array has one element per frame, in order; element i is the wire format of frame i, and decodes to it iff that frame is finite. |
| CommandDeserializer.OpcodeTablesAgree | src/serialization/CommandDeserializer.cpp:9-75 | The enumeration, resolveOpcode and the name table agree and are injective; the allowlist is exactly the named bytes. |
| CommandDeserializer.OpcodeNames | src/serialization/CommandDeserializer.cpp:9-16 | Every opcode is logged under the name of its enumerator, and everything else as UNKNOWN. |
| CommandDeserializer.UplinkOpcodes | src/serialization/CommandDeserializer.cpp:60-70 | Which command each of the six numbers is on the uplink, with the optional fields at their defaults. |
| CommandDeserializer.MalformedTexts | src/serialization/CommandDeserializer.cpp:18-28 | A text is reported as std::runtime_error iff it is not JSON or opcode or sequence_number is missing. |
| CommandDeserializer.DecodesToWhatItStandsFor | src/serialization/CommandDeserializer.cpp:18-58 | A text is decoded to a command iff it stands for it: required fields convert, opcode known, missing subsystem, parameters and timestamp are empty, an empty object and the clock. |
| CommandDeserializer.AcceptedTexts | src/serialization/CommandDeserializer.cpp:18-58 | Exactly which texts are accepted. |
| CommandDeserializer.TypeErrorTexts | src/serialization/CommandDeserializer.cpp:31-55 | Exactly which texts make the library throw its type_error. |
| CommandDeserializer.DisallowedTexts | src/serialization/CommandDeserializer.cpp:33-45 | Exactly which texts are refused as std::invalid_argument, and with which byte. |
| CommandDeserializer.OtherLibraryFailures | src/serialization/CommandDeserializer.cpp:30-55 | The only further outcome is the undefined conversion of a floating-point number that does not fit its field. |
| CommandDeserializer.OpcodeIsNarrowed | src/serialization/CommandDeserializer.cpp:33-36 | The opcode executed is the number sent modulo 256, hence the number itself iff it fits in a byte. |
| CommandDeserializer.OpcodeBeyondAByte | src/serialization/CommandDeserializer.cpp:33-36 | The number 257 is accepted as NOOP. |
| CommandDeserializer.CommandRoundTrip | src/serialization/CommandDeserializer.cpp:18-58 | A command written out in full is read back unchanged iff its opcode is allowed. |
| CommandDeserializer.FromJson | src/serialization/CommandDeserializer.cpp:18-58 | Computes the decoding characterised above: malformed iff not JSON or incomplete, else a command the text stands for or an error; never UNKNOWN. |
| CommandHandler.RegisteringKeepsRepresentation | src/command/CommandHandler.cpp:6-8 | Updating the table in place keeps it equal to the backward search of the registration log. |
| CommandHandler.LatestIsLast | src/command/CommandHandler.cpp:6-8 | The handler in force is that of the last registration of the opcode, and there is none iff it was never registered. |
| CommandHandler.DispatchedByLatest | src/command/CommandHandler.cpp:10-18 | A command gets the answer of the handler registered last for its opcode, whatever it is, and REJECTED if there was never one. |
| CommandHandler.BadTextsAreRejected | src/command/CommandHandler.cpp:20-32 | Text that is not JSON, a missing required field and a disallowed opcode give REJECTED. |
| CommandHandler.GoodTextsAreDispatched | src/command/CommandHandler.cpp:20-32 | A text that stands for a command gets the answer of dispatching that command. |
| CommandHandler.CommandHandler.RegisterHandler | src/command/CommandHandler.cpp:6-8 | Appends to the log that the table represents. |
| CommandHandler.CommandHandler.Dispatch | src/command/CommandHandler.cpp:10-18 | Runs the handler registered last for the opcode, once, and returns its answer; REJECTED without running any if there was never one. |
| CommandHandler.CommandHandler.DispatchRaw | src/command/CommandHandler.cpp:20-32 | Equals decoding followed by dispatch, with the two caught exceptions turned into REJECTED and library failures let through; malformed text reaches no handler. |
| CommandHandler.TypeErrorEscapes | src/command/CommandHandler.cpp:20-32 | Exactly the texts on which dispatchRaw lets a type_error escape instead of returning REJECTED. |
| CommandHandler.OpcodeAsStringEscapes | src/command/CommandHandler.cpp:20-32 | An opcode given as a string is such a text. |
| CommandPipeline.RegisterCommandHandlers | src/main.cpp:69-104 | The six registrations cover exactly the opcodes that resolveOpcode can return besides UNKNOWN. |
| CommandPipeline.DecodableTextByText | src/main.cpp:168-174 | Each injected text that stands for a command contributes exactly that command, at its place, and no other text contributes. |
| CommandPipeline.Inject | src/main.cpp:168-178 | The queue ends up with the decodable commands in order, cut off at its depth, all with a known opcode. |
| CommandPipeline.DrainCommands | src/main.cpp:220-225 | Terminates with the queue empty; every queued command reached its handler in push order and returned SUCCESS. |
| FlightComputer.DemoCommands | src/main.cpp:176-178 | The three injected texts are the NOOP, SET_MODE and PAYLOAD_ON commands. |
| FlightComputer.NextFrame | src/main.cpp:190-202 | Generating, evaluating through the callback and stamping compute one iteration of the flight; the frame carries the given number, inputs and readings, and the flags as the callback left them. |
| FlightComputer.Fly | src/main.cpp:152-235 | A complete flight takes the dispatcher through exactly one run: start, the turns and the frame of each iteration in order, the last turns, and stop, with the given answers of sendUdp. Its attempts are the frames of the flight, it ends stopped and joined, and the injected commands have been executed in order; a failed start ends main at once. |
| FlightComputer.LandedReport | src/main.cpp:234-237 | After shutdown sent + dropped + leftover equals the iterations; the downlink is the wire format of the sent frames, in order, and decodes to them; the leftover is the tail of what was accepted. |
| Downlink.ProcessedComesFromFlight | src/main.cpp:214-217 | Processed and sent frames are selections, in order, of the frames the loop made. |
| Downlink.DownlinkOfAnyPrefix | src/main.cpp:189-217 | At any point of any interleaving the sent frames decode exactly, have strictly increasing frame_id and monotone safe mode. |
| Downlink.ShutdownAccounting | src/main.cpp:234-237 | With start and stop returned, the counters and the queue account for every iteration. |

## Left out

- Sockets, addresses, ports and `sendto`: `sendUdp` is an arbitrary boolean, decided per call.
- Time: sleep durations, interval lengths and timeouts are steps the scheduler takes when it likes.
- JSON text: printing and parsing belong to nlohmann/json, which is not part of this model; texts are represented by the value they parse to. Its accessors are modelled as the library documents them (`at`, `contains`, `value`, `get<T>` with narrowing of integers).
- GetDouble: an integer read into a double is taken exactly; the rounding above 2^53 is not modelled. toJson never writes an integer for a double.
- GetNarrow: converting a floating-point number that does not fit is undefined behaviour in C++; it is a separate outcome here about which nothing is claimed.
- GenerateFrame: its doubles are computed over the reals with sines in [-1, 1], so rounding in the last place is not modelled; the sines of its four phases are independent inputs, so what the fixed offsets between the phases imply is not modelled; uptime_s is an input, because the repeated addition to t_s rounds.
- DispatchLoop: follows a schedule of any finite length; the C++ loop goes on as long as m_running is set.
- Fly: gives the background thread its turns between the iterations of main, which is where they can make a difference to the dispatcher; interleavings with other producers are covered by the DispatcherModel theorems only.
- Start: one call from one control thread, as the header promises thread safety only for enqueue; the interleaving of its statements with producers and the background thread is in DispatcherModel.
- Callbacks: the handlers that commands reach are functions without effects of their own; the fault callback is the one that main registers.
- ConfigLoader (yaml-cpp plumbing), console output, signal delivery beyond an arbitrary number of iterations, and the copies of the sources under scripts/.
- CommandQueue inside main is used by one thread only; the concurrent use that its header describes is what CommandQueueModel is about.
