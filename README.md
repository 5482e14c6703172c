# Pulse-burst monitor firmware: a verified model of its core

The firmware runs on an ESP32 under FreeRTOS. It watches a pin for bursts of
pulses and keeps a rolling ten-burst average of what it measures. Around
that core sit several small drivers and tasks:

- a PCA9685 pulse generator;
- a TCA9534A GPIO expander for the buttons and the battery-alert line;
- a MAX17048 fuel gauge;
- an MCP4151 digital potentiometer with its one-shot task;
- a second SPI digital-pot front end;
- the battery task;
- the control loop.

This project models each of these parts in Dafny, one module per source
file, and proves what each one promises.

- **PulseTiming** (`pulse_timing.dfy`) covers pure functions, with lemmas
  about whole runs of edges:
  - the edge interrupt's classification of each edge;
  - the values the polling task derives when a burst ends: duration, off
    period, pulse count, first-pulse period and frequency;
  - the outlier test;
  - the 3000 ms baseline hold.
- **PulseStats** (`pulse_stats.dfy`) covers the rolling window:
  - The ring has ten slots, a write cursor and a saturating count.
  - The window invariant ties the ring to the history of valid bursts
    recorded since the last reset. Until the ring is full, the cursor
    equals the count and the first slots hold the history in order. Once
    it is full, the ring is the last ten bursts rotated by the cursor.
  - The sum over slots `0..validBursts-1` is then the sum of the most
    recent `min(n, 10)` bursts.
- **PulseTasks** (`pulse_tasks.dfy`) is one class for the whole module:
  - the fields shared by the interrupt and the polling task;
  - the task's locals, with the five parallel rolling arrays held as one
    `array` of records;
  - the single-slot result queue and the lifecycle (init, create, receive,
    stop).

  The interrupt and each poll tick are atomic methods, and every clock is a
  parameter.
- **GpioExpander, Max17048, Mcp4151, Mcp4151Tasks, BatteryTasks,
  PulseGenerator, DigitalPot, Control** model the secondary files. Each bus
  transaction becomes a parameter: whether it succeeded and which byte or
  word it returned. The register-level methods (the MAX17048, MCP4151 and
  GPIO expander drivers, and the PCA9685 frequency and update steps) return
  the writes they put on the bus, in order; the initialisation and task
  methods listed under "## Left out" return only their outcomes.

Integer widths are explicit:

- `U32`, `U16` and `U8` are subset types.
- Unsigned subtraction and addition wrap modulo 2^32 (`Common.Sub32`,
  `Common.Add32`).
- `edgeCount++` wraps at 2^16 (`Common.Inc16`).
- Register values are bit-vectors where the source masks bits.

The burst duration is measured from the burst's first edge to the poll that
sees the burst end, so it includes the idle tail of more than 2000 us after
the last edge. `PulseTiming.BurstMeasurement` states how this relates to
the span from the first edge to the last.

## Model

| member | source | states |
|---|---|---|
| Common.Sub32 | src/pulse_tasks.cpp:34 | unsigned 32-bit difference: exact when no borrow, otherwise plus 2^32 |
| Common.Add32 | src/pulse_tasks.cpp:186 | unsigned 32-bit sum wraps past 2^32 |
| Common.Inc16 | src/pulse_tasks.cpp:43 | `uint16_t` increment: one more, or 0 after 65535 |
| Common.SubAfterAdd | src/pulse_tasks.cpp:186 | a time `d` after `t` is `d` after it by unsigned subtraction, across the wrap |
| PulseTiming.LaterEdges | src/pulse_tasks.cpp:42-52 | after the third edge, further edges only count and move the last-edge time; start time, first-pulse period and notification stay |
| PulseTiming.BurstFromIdle | src/pulse_tasks.cpp:28-55 | a run of edges whose first one opens a burst leaves it active and notified, starting at the first edge, with one count per edge, the last edge's time, and the gap between edges 2 and 3 as first-pulse period (0 with fewer than three) |
| PulseTiming.FrequencyFloor | src/pulse_tasks.cpp:152-156 | frequency is non-negative, and positive exactly when there are at least four edges and a positive duration |
| PulseTiming.BurstMeasurement | src/pulse_tasks.cpp:132-166 | for a burst from its first edge to the poll that ends it: pulse count is half the edges, duration is poll time minus first edge and exceeds last-minus-first by more than the timeout, first-pulse period as above, frequency non-zero iff at least four edges |
| PulseTiming.BaselineHold | src/pulse_tasks.cpp:184-191 | a baseline latched at `t` expires for an outlier `e` ms later iff `e > 3000`, across the clock wrap |
| PulseStats.Recent | src/pulse_tasks.cpp:259-265 | the bursts the window should hold number min(n, 10) |
| PulseStats.ClearedWindow | src/pulse_tasks.cpp:175-182 | the zeroed ring with cursor and count 0 satisfies the window invariant for the empty history |
| PulseStats.InsertKeeps | src/pulse_tasks.cpp:194-198 | under the invariant the ring has 10 slots, cursor in 0..9 and count min(n, 10); writing the cursor's slot, advancing mod 10 and saturating the count keeps the invariant for the history extended by the burst |
| PulseStats.InsertFilling | src/pulse_tasks.cpp:216-219 | while the ring has room, the new burst lands just after the history and the rest stays cleared |
| PulseStats.FillingCompletes | src/pulse_tasks.cpp:216-219 | the burst filling the last free slot makes the ring the last ten bursts with the cursor back at 0 |
| PulseStats.InsertFull | src/pulse_tasks.cpp:194-198 | in a full ring the oldest burst, at the cursor, is replaced and the ring stays the last ten bursts rotated by the new cursor |
| PulseStats.RecentAppend | src/pulse_tasks.cpp:216-219 | once ten bursts are held, a new one pushes the oldest out |
| PulseStats.SumConcat | src/pulse_tasks.cpp:259-265 | totals of a concatenation are the sum of the parts' totals |
| PulseStats.SumRotated | src/pulse_tasks.cpp:259-265 | rotating the ring does not change its totals |
| PulseStats.WindowSum | src/pulse_tasks.cpp:259-265 | summing slots `0..validBursts-1` gives exactly the totals of the most recent min(n, 10) bursts since the last reset, whatever the rotation |
| PulseTasks.PulseMonitor.constructor | src/pulse_tasks.cpp:10-25 | the module's statics start zeroed with no queue, task or interrupt, and the window invariant holds |
| PulseTasks.PulseMonitor.OnEdge | src/pulse_tasks.cpp:28-55 | the shared state after an edge is the classifier's step: new burst, counted edge, or last-edge time only |
| PulseTasks.PulseMonitor.Snapshot | src/pulse_tasks.cpp:116-129 | the snapshot is the shared state before the call, and the notify flag is consumed |
| PulseTasks.PulseMonitor.Publish | src/pulse_tasks.cpp:228 | an overwrite leaves exactly the new result in a created queue |
| PulseTasks.PulseMonitor.ResetWindow | src/pulse_tasks.cpp:175-182 | every slot is zero, cursor and count are 0, and the window holds the empty history |
| PulseTasks.PulseMonitor.Record | src/pulse_tasks.cpp:194-198 | the window invariant holds for the history extended by the burst |
| PulseTasks.PulseMonitor.DropOutlier | src/pulse_tasks.cpp:171-191 | the window is emptied; the baseline survives iff it was held and has not passed its 3000 ms hold |
| PulseTasks.PulseMonitor.Accept | src/pulse_tasks.cpp:192-222 | the burst enters the window; it becomes the baseline, stamped now, only if none was held, otherwise the baseline and its stamp are kept |
| PulseTasks.PulseMonitor.EndBurst | src/pulse_tasks.cpp:132-231 | the burst is closed and its result derived and published even for an outlier; an outlier empties the window and may drop the baseline, a valid burst extends the history and may latch the baseline |
| PulseTasks.PulseMonitor.Conclude | src/pulse_tasks.cpp:225-230 | the previous-end time becomes now, the result is published, and the active mark clears |
| PulseTasks.PulseMonitor.NoticeStart | src/pulse_tasks.cpp:233-245 | the published result is the previous one marked active and successful, with every other field kept |
| PulseTasks.PulseMonitor.RollingSums | src/pulse_tasks.cpp:259-265 | the averaging loop's totals are the totals of the most recent bursts since the last reset |
| PulseTasks.PulseMonitor.MaybeReport | src/pulse_tasks.cpp:248-323 | a report is made iff the interval has passed and the window is not empty; its means are the recent bursts' totals over their count, with the baseline if held |
| PulseTasks.PulseMonitor.Tick | src/pulse_tasks.cpp:104-327 | one poll: a timed-out burst ends and takes precedence over a start notice. An ending burst is completed, remembered as the previous end and published; an outlier empties the window and drops an expired baseline, a valid burst enters the window and becomes the baseline if none is held. Without an end, window and baseline are untouched, and a start notice republishes the last result marked active only when none was marked. A report is made iff the interval has passed and the window is not empty, which also moves the report time; the notify flag is always consumed and the invariants kept |
| PulseTasks.PulseMonitor.Init | src/pulse_tasks.cpp:334-372 | success iff the queue is created and the pin has an interrupt; then the shared state is zeroed and the interrupt attached; a failure leaves no queue |
| PulseTasks.PulseMonitor.CreateTask | src/pulse_tasks.cpp:374-403 | refused without a queue; returns true without change when a task is already running; otherwise creates one that starts from the initial locals |
| PulseTasks.PulseMonitor.StartTask | src/pulse_tasks.cpp:62-101 | a new task starts with the initial result, an empty window, no baseline, and the report timer at now |
| PulseTasks.PulseMonitor.Receive | src/pulse_tasks.cpp:405-423 | peeks the latest result without removing it; fails with no queue or nothing published, and leaves the caller's buffer as it was |
| PulseTasks.PulseMonitor.Stop | src/pulse_tasks.cpp:425-446 | always succeeds; a running module loses its interrupt, task and queue, and a stopped one is left unchanged |
| GpioExpander.EnqueueAllKeepsOldest | src/gpio_expander_tasks.cpp:163 | sends without blocking keep the queued events and append as many new ones, in order, as fit in 10 |
| GpioExpander.EventsFollowBits | src/gpio_expander_tasks.cpp:135-160 | the k-th event is the event of the k-th changed pin: pressed or alert-active for a 0 bit, mask `1 << i` |
| GpioExpander.ChangedBitsExact | src/gpio_expander_tasks.cpp:129-139 | the pins that generate events are exactly the changed pins among 0-4, in strictly ascending order |
| GpioExpander.NoEventsIffHighBits | src/gpio_expander_tasks.cpp:129-139 | a poll generates no event iff the change lies only in bits 5-7 |
| GpioExpander.NoChangeNoEvents | src/gpio_expander_tasks.cpp:131 | an unchanged input byte generates no event |
| GpioExpander.OutputWith | src/gpio_expander_tasks.cpp:310-315 | the requested pin bits are set or cleared as asked, and all other output bits are kept |
| GpioExpander.EnqueueChanges | src/gpio_expander_tasks.cpp:135-166 | the loop queues exactly the events of the changed pins, in ascending order, into the bounded queue |
| GpioExpander.Expander.constructor | src/gpio_expander_tasks.cpp:17-18 | the remembered input and output bytes start at 0, with no status published and no events queued |
| GpioExpander.Expander.Poll | src/gpio_expander_tasks.cpp:118-175 | a failed read changes nothing; a successful one publishes the status, queues one event per changed monitored pin, and remembers the new input |
| GpioExpander.Expander.WaitForButtonEvent | src/gpio_expander_tasks.cpp:283-300 | takes the oldest event if any; true iff the mask is 0 or overlaps the event's mask; a non-matching event is consumed too |
| GpioExpander.Expander.SetOutput | src/gpio_expander_tasks.cpp:302-331 | rejects a pin outside the output mask; writes only on a change; records the new byte only if the write succeeds |
| GpioExpander.Expander.ElecShutdownState | src/gpio_expander_tasks.cpp:333-335 | the shutdown bit reads set exactly when setting it again would change nothing, and clear exactly when clearing it would change nothing |
| GpioExpander.Expander.SetElecShutdown | src/gpio_expander_tasks.cpp:333-339 | succeeds iff the write succeeds or no change was needed; a write, of the current byte with only the shutdown bit changed, is attempted exactly when the state has to change; on success the shutdown state reads back as requested, on failure the output byte is unchanged, and other outputs are never touched |
| Max17048.WordBytes | lib/MAX17048/src/MAX17048.cpp:196-197 | a register word goes on the bus as two bytes |
| Max17048.WordOf | lib/MAX17048/src/MAX17048.cpp:230-232 | the reassembled word serialises to the two bytes read, high byte first |
| Max17048.WordRoundTrip | lib/MAX17048/src/MAX17048.cpp:196-232 | serialising a word and reassembling it gives it back |
| Max17048.CapThreshold | lib/MAX17048/src/MAX17048.cpp:96-98 | a threshold is at most 32: kept if it fits, otherwise 32 |
| Max17048.EncodeThreshold | lib/MAX17048/src/MAX17048.cpp:106-113 | the upper byte is kept; for 1..32 the alert flags are clear and ATHD holds 32 - t; for 0 the value lands in the ALRT bit |
| Max17048.DecodeThreshold | lib/MAX17048/src/MAX17048.cpp:176-177 | the decoded threshold lies in 1..32 |
| Max17048.ThresholdRoundTrip | lib/MAX17048/src/MAX17048.cpp:113-177 | decoding recovers every threshold 1..32 that encoding wrote; 0 comes back as 32 |
| Max17048.VoltageMv | lib/MAX17048/src/MAX17048.cpp:59-60 | exact millivolts, at most 5119, so the result fits in 16 bits |
| Max17048.VoltageMvAsWritten | lib/MAX17048/src/MAX17048.cpp:60 | the driver's conversion with its 32-bit product still fits in 16 bits |
| Max17048.VoltageAgreesBelowWrap | lib/MAX17048/src/MAX17048.cpp:60 | the driver's conversion is exact up to raw 54975 and too low above it |
| Max17048.VoltageWrapsAtFullScale | lib/MAX17048/src/MAX17048.cpp:60 | a full-scale reading is 5119 mV exactly but 824 mV as written |
| Max17048.VoltageMonotone | lib/MAX17048/src/MAX17048.cpp:60 | the exact conversion never decreases; the driver's drops at the wrap |
| Max17048.SocPercent | lib/MAX17048/src/MAX17048.cpp:73-74 | SOC fits in a byte |
| Max17048.SocFullScaleIsErrorCode | lib/MAX17048/src/MAX17048.cpp:63-75 | a reading gives 255, the error code, iff its raw value is at least 0xFF00 |
| Max17048.ClearedFlags | lib/MAX17048/src/MAX17048.cpp:159-161 | the alert flags are cleared and every other bit of CONFIG, ATHD included, is kept |
| Max17048.ClearAlertKeepsThreshold | lib/MAX17048/src/MAX17048.cpp:159-179 | re-applying the threshold decoded from a CONFIG that held threshold 1..32 re-applies the same threshold |
| Max17048.FuelGauge.constructor | lib/MAX17048/src/MAX17048.cpp:3-7 | uninitialised, with or without the mutex |
| Max17048.FuelGauge.SetAlertThreshold | lib/MAX17048/src/MAX17048.cpp:90-117 | no write when the guard rejects or CONFIG cannot be read; otherwise exactly one CONFIG write of the encoded capped threshold, and success iff it goes through |
| Max17048.FuelGauge.Begin | lib/MAX17048/src/MAX17048.cpp:9-47 | without the mutex nothing happens; otherwise the flag clear, the STATUS clear and the threshold write, each only after its read succeeds; initialised iff VERSION can be read |
| Max17048.FuelGauge.ReadVoltage | lib/MAX17048/src/MAX17048.cpp:49-61 | millivolts of the reading, or 0 when uninitialised or the read fails |
| Max17048.FuelGauge.ReadSoc | lib/MAX17048/src/MAX17048.cpp:63-75 | percent of the reading, or 255 when uninitialised or the read fails |
| Max17048.FuelGauge.ReadVersion | lib/MAX17048/src/MAX17048.cpp:77-88 | the VERSION word, or 0 when uninitialised or the read fails |
| Max17048.FuelGauge.IsAlertActive | lib/MAX17048/src/MAX17048.cpp:119-148 | true iff initialised, CONFIG read, and ALRT set or a STATUS read showing any of bits 8-10 |
| Max17048.FuelGauge.ClearAlert | lib/MAX17048/src/MAX17048.cpp:150-184 | false without writes when uninitialised; otherwise the flag clear (if CONFIG was read), the STATUS clear and the threshold re-write with the decoded threshold; success iff every step succeeds |
| Mcp4151.CommandByte | lib/MCP4151/src/MCP4151.cpp:145-181 | the command keeps its high nibble; the low nibble is the command's ORed with the register's |
| Mcp4151.WiperCommands | lib/MCP4151/src/MCP4151.cpp:145-181 | the wiper is written with 0x00 and read with 0x0C |
| Mcp4151.UpsSaturate | lib/MCP4151/src/MCP4151.cpp:84-87 | n increments give min(p + n, 255) |
| Mcp4151.DownsSaturate | lib/MCP4151/src/MCP4151.cpp:119-122 | n decrements give p - n, or 0 |
| Mcp4151.UpDown | lib/MCP4151/src/MCP4151.cpp:59-127 | away from the ends, decrement undoes increment and increment undoes decrement |
| Mcp4151.Pot.constructor | lib/MCP4151/src/MCP4151.cpp:3-7 | uninitialised with a cached position of 0 |
| Mcp4151.Pot.ReadRegister | lib/MCP4151/src/MCP4151.cpp:165-197 | the chip's answer after the read command and a dummy byte, or 255 with nothing sent when the mutex is missing or busy |
| Mcp4151.Pot.WriteRegister | lib/MCP4151/src/MCP4151.cpp:129-163 | succeeds iff the mutex is taken, and then sends the command byte and the value |
| Mcp4151.Pot.BeginAsWritten | lib/MCP4151/src/MCP4151.cpp:9-31 | a first begin always fails and stays uninitialised |
| Mcp4151.Pot.Begin | lib/MCP4151/src/MCP4151.cpp:9-31 | initialised iff the mutex exists and the wiper read answers something other than 255, which becomes the cache |
| Mcp4151.Pot.SetWiper | lib/MCP4151/src/MCP4151.cpp:33-44 | succeeds iff initialised and the write goes through; the cache follows only a successful write |
| Mcp4151.Pot.GetWiper | lib/MCP4151/src/MCP4151.cpp:46-57 | the position read, 255 when uninitialised or the mutex is busy; the cache follows any answer other than 255 |
| Mcp4151.Pot.IncrementWiper | lib/MCP4151/src/MCP4151.cpp:59-92 | sends the increment command and returns the cache moved up with saturation, or 255 with no change |
| Mcp4151.Pot.DecrementWiper | lib/MCP4151/src/MCP4151.cpp:94-127 | sends the decrement command and returns the cache moved down with saturation, or 255 with no change |
| Mcp4151.BeginNeverSucceeds | lib/MCP4151/src/MCP4151.cpp:9-57 | a newly constructed driver begun as written fails, and then reads 255 and refuses writes, whatever the bus does |
| Mcp4151Tasks.ReportedAgreesWithDriver | src/mcp4151_tasks.cpp:34-71 | a reported position is never 255 and equals the driver's new cache; an increment reaching 255 is reported as a failure although the driver moved; a decrement succeeds iff the mutex is taken |
| Mcp4151Tasks.DigipotModule.constructor | src/mcp4151_tasks.cpp:10-13 | no driver, no queue, nothing pending |
| Mcp4151Tasks.DigipotModule.Init | src/mcp4151_tasks.cpp:90-122 | success iff the driver begins and the queue is created; the initial read fills `lastPosition`; any failure drops the driver |
| Mcp4151Tasks.DigipotModule.CreateTask | src/mcp4151_tasks.cpp:124-159 | refuses without a driver or a queue; otherwise adds one task iff the scheduler accepts it |
| Mcp4151Tasks.DigipotModule.RunTask | src/mcp4151_tasks.cpp:22-88 | the task's result is the operation's report; only a success updates `lastPosition` and is queued (dropped from a full slot); an unknown operation changes nothing |
| Mcp4151Tasks.DigipotModule.Receive | src/mcp4151_tasks.cpp:161-180 | takes the queued result and copies its position into `lastPosition`; otherwise fails with no change |
| Mcp4151Tasks.DigipotModule.GetLastWiperPosition | src/mcp4151_tasks.cpp:182-184 | the cached position, unchanged |
| BatteryTasks.ChargingStatusBijective | src/battery_tasks.cpp:27-40 | each of the four statuses comes from exactly one pair of pin levels |
| BatteryTasks.Ordinal | src/battery_tasks.cpp:244-256 | the enum's values are 0..3 |
| BatteryTasks.StatusStringsDistinct | src/battery_tasks.cpp:244-256 | the four statuses have distinct names, none "Unknown"; any other value is "Unknown" |
| BatteryTasks.FinalAlertIsLastTest | src/battery_tasks.cpp:79-114 | for a valid reading the reported alert is the answer to the last of the one to three alert tests the task makes, so an alert reported above 15 % survived both the clear and the re-begin; an invalid reading makes no test and reports no alert |
| BatteryTasks.RetryBounded | src/battery_tasks.cpp:58-123 | the gauge calls start with the two readings; at most one clear, as the fourth call, exactly for a valid reading with an active alert above 15 %; at most one re-begin, sixth, exactly when the alert survives the clear; nothing more for an invalid reading |
| BatteryTasks.BatteryModule.constructor | src/battery_tasks.cpp:10-12 | no gauge, no queue, no task |
| BatteryTasks.BatteryModule.SwitchChangeIsr | src/battery_tasks.cpp:21-24 | the connected flag is the inverted pin level |
| BatteryTasks.BatteryModule.Init | src/battery_tasks.cpp:142-196 | samples the switch, begins the gauge at 10 % and clears the alert; success iff the queue is created, and a failure drops the gauge |
| BatteryTasks.BatteryModule.CreateTask | src/battery_tasks.cpp:198-222 | a task is added iff gauge and queue exist and the scheduler accepts |
| BatteryTasks.BatteryModule.RunTask | src/battery_tasks.cpp:49-140 | success iff voltage > 0 and SOC is not 255; the status carries the readings, the decoded charger pins, the inverted switch and the last alert test made; only a successful status is queued |
| BatteryTasks.BatteryModule.Receive | src/battery_tasks.cpp:224-242 | takes the queued status if there is one, otherwise fails with no change |
| PulseGenerator.ClampFrequency | src/pulse_generator.cpp:250-252 | the result lies in [24, 1526], equals the request inside it and the nearer bound outside it |
| PulseGenerator.ClampIdempotent | src/pulse_generator.cpp:250-252 | clamping twice is clamping once, as in calculatePrescale's second clamp |
| PulseGenerator.Prescale | src/pulse_generator.cpp:70-82 | the prescaler of a clamped frequency fits in the byte written, between 3 and 253 |
| PulseGenerator.PrescaleFits | src/pulse_generator.cpp:75-81 | the rounded prescaler formula stays within 3..253 over the whole clamped range |
| PulseGenerator.SleepMode | src/pulse_generator.cpp:267 | RESTART cleared, SLEEP set, every other MODE1 bit kept |
| PulseGenerator.RestartMode | src/pulse_generator.cpp:291 | RESTART set, every other MODE1 bit kept |
| PulseGenerator.ChannelBase | src/pulse_generator.cpp:93 | a channel's registers start at 6 + 4 * channel |
| PulseGenerator.ChannelsDisjoint | src/pulse_generator.cpp:93 | the 16 channels' register blocks do not overlap; the pulse channels start at 0x1E and 0x22 |
| PulseGenerator.PwmBytes | src/pulse_generator.cpp:99-103 | four bytes, low then high, that reassemble to the on and off counts |
| PulseGenerator.HalfDutyBytes | src/pulse_generator.cpp:113-117 | a 50 % duty cycle writes 0, 0, 0, 8 |
| PulseGenerator.Attempted | src/pulse_generator.cpp:266-294 | one to four sequence writes are attempted, all four iff the first three succeed |
| PulseGenerator.ResetStep | src/pulse_generator.cpp:149-185 | the reset succeeds iff every step does |
| PulseGenerator.WriteModeSequence | src/pulse_generator.cpp:266-294 | the writes are a prefix of sleep, prescaler, old mode, restart, cut after the first failure; committed iff all four succeed |
| PulseGenerator.Generator.constructor | src/pulse_generator.cpp:8-16 | no bus, frequency 0, disabled, uninitialised |
| PulseGenerator.Generator.SetPulseFrequency | src/pulse_generator.cpp:237-304 | fails with no writes without a bus or a MODE1 read; records the clamped frequency only after a complete sequence; then re-applies both duty cycles, the second only if the first succeeded; success iff all succeed |
| PulseGenerator.Generator.Enable | src/pulse_generator.cpp:306-322 | refused with no change when uninitialised; otherwise drives the pin and records the state |
| PulseGenerator.Generator.Update | src/pulse_generator.cpp:324-338 | enables only on a change, and then (when initialised) both the enabled flag and the enable pin follow `pulseEn`; retunes only for a new in-range frequency, with exactly the register writes of setPulseFrequency; both are attempted and the result is their conjunction |
| PulseGenerator.Generator.Init | src/pulse_generator.cpp:187-235 | success iff every step succeeds; the initialised mark is set before the default frequency and duty cycles and reverted if they fail; an earlier failure leaves it as it was; the enable pin is driven low once the mutex exists and is untouched otherwise |
| PulseGenerator.Generator.CreateTask | src/pulse_generator.cpp:359-385 | a task is created only after initialisation |
| DigitalPot.Clamp | src/digital_pot.cpp:124-127 | the value is at most 128, unchanged if it fits |
| DigitalPot.DivTrunc | src/digital_pot.cpp:155 | C's truncating division by a positive divisor: the remainder has the dividend's sign and lies strictly within the divisor, and the quotient lies between 0 and the dividend |
| DigitalPot.StrengthRange | src/digital_pot.cpp:155 | strengths 10..250 map into 100..128 with the ends on the ends; above 250 gives 128; 0 and 1 give 99 |
| DigitalPot.StrengthMonotone | src/digital_pot.cpp:155 | the mapping never decreases |
| DigitalPot.MappedValueFits | src/digital_pot.cpp:155-159 | the mapped value fits a byte and the clamp never changes it |
| DigitalPot.Pot.constructor | src/digital_pot.cpp:9-15 | no bus, value 128, uninitialised, no task |
| DigitalPot.Pot.Transfer | src/digital_pot.cpp:18-52 | the chip's answer, or 0xFF without a bus or the mutex |
| DigitalPot.Pot.SetValue | src/digital_pot.cpp:117-138 | with a bus it records the clamped value and succeeds whether or not the transfer happened |
| DigitalPot.Pot.ReadValue | src/digital_pot.cpp:140-151 | the chip's answer to the read command, or 0xFF |
| DigitalPot.Pot.IsResponding | src/digital_pot.cpp:55-81 | fails iff the probe write fails or the read-back is 0xFF; a success leaves the original value restored if it was read |
| DigitalPot.Pot.Init | src/digital_pot.cpp:83-115 | initialised iff the mutex exists and the probe passes; then the default value 128 is set; a failed probe leaves the probe value 127 recorded, and without a mutex the value is untouched |
| DigitalPot.Pot.UpdateFromStrength | src/digital_pot.cpp:153-165 | writes only when the mapped value differs from the current one |
| DigitalPot.Pot.CreateTask | src/digital_pot.cpp:192-218 | only after initialisation; starts from the current strength |
| DigitalPot.Pot.TaskStep | src/digital_pot.cpp:176-185 | only a change of strength reaches the pot; then the mapped value is recorded and written exactly when it differs from the current value and a bus is attached (the write reaching the chip only with the mutex) |
| Control.LowAfterMeaning | src/main.cpp:176-191 | after a run of readings the flag is up iff some reading was at or below 10 % with none at 15 % after it, or it was up before and no reading reached 15 % |
| Control.ChargingFlags | src/main.cpp:172-173 | the two flags are never both up, and both are down when not charging or on a charger error |
| Control.ChargingFlagsFromPins | src/main.cpp:172-173 | traced back through getChargingStatus, the charging flag is up iff CHRG is low and STDBY high, and the complete flag iff CHRG is high and STDBY low |
| Control.Controller.constructor | src/main.cpp:31-34 | every flag starts down |
| Control.Controller.HandleSwitchChange | src/main.cpp:57-84 | acts iff the connected flag differs from the last state seen, and then remembers it |
| Control.Controller.UpdateBatteryFlags | src/main.cpp:147-226 | a received, successful status sets the charging flags and steps the low-battery flag; a timeout or a failed reading changes none |
| Control.Controller.Cycle | src/main.cpp:91-231 | the switch is handled first, then the battery result, with both effects as above |

## Left out
- Concurrency is not modelled:
  - The critical sections, `volatile`, interrupt attributes and task notifications are not modelled.
  - The interrupt and each poll tick are atomic steps. A real edge can arrive between the snapshot and the burst-end write of `burstActive` (src/pulse_tasks.cpp:117-137); that edge is not modelled.
- Task creation, deletion and scheduling become booleans and lists of pending tasks:
  - `vTaskDelay` and the delays are not modelled.
  - Queue receive timeouts are booleans: whether something arrives in time.
  - A send with a 100 ms timeout into a full queue drops the item. A receiver that drains the queue during the wait is not modelled.
- Floating point is not modelled:
  - `frequencyKHz` and the rolling means are exact reals, and float rounding is not modelled.
  - The prescaler is computed exactly as floor((50000000 - 4096 f) / (8192 f)), which is what `calculatePrescale`'s float arithmetic approximates.
  - The percentage change against the baseline (src/pulse_tasks.cpp:306-307), which can divide by zero, is printing only and is left out.
- Printing is left out: all `Serial` output, `DEBUG_PRINT` and the beeper call on a button press. A report is returned as a value.
- Clocks (`micros`, `millis`, the tick count) are parameters. A tick is taken to be one millisecond, so the report interval is 1000 ticks.
- One clock reading per pass or poll stands for every clock call in it:
  - PulseTasks.PulseMonitor.Tick and EndBurst take one `nowMs`. The burst-end branch of the source calls `millis()` three times: for the result's timestamp (src/pulse_tasks.cpp:166), for the 3000 ms hold check (line 185) and for the baseline stamp (line 207). Time that passes between those calls is not modelled.
  - GpioExpander.ChangeEvents and Expander.Poll give every event of one poll the same `nowMs`. The source calls `millis()` for each event (src/gpio_expander_tasks.cpp:141), and the button beep between events can wait for its mutex, so events of one poll can carry different timestamps there.
- PulseTasks.PulseMonitor: the five parallel rolling arrays are one array of five-field records, always written at the same index.
- PulseTasks.PulseMonitor.Publish: a publish to a deleted queue is a no-op. In the source that handle would be stale.
- BatteryTasks.BatteryModule.RunTask: the fuel gauge's answers (`readVoltage`, `readSOC`, each `isAlertActive`) are parameters. The FuelGauge class is modelled separately in Max17048, and the effect of `clearAlert` and `begin` on the chip is reflected only through the next alert answer.
- BatteryTasks.BatteryModule.RunTask: for an invalid reading the source never assigns `isAlert`, and the status is not queued. The model reports `false` there.
- BatteryTasks.BatteryModule.RunTask requires a created gauge and queue. A task that runs after a failed re-initialisation dereferences a null gauge in the source.
- Max17048.FuelGauge.ClearAlert: when the CONFIG read fails, the source decodes an uninitialised variable. Its value is the parameter `indeterminate`.
- Max17048.FuelGauge.SetAlertThreshold takes the threshold as a natural number; the source's `uint8_t` parameter is not truncated. Every caller passes 10 or a decoded value in 1..32.
- Max17048: a read without a mutex is treated as a failed read.
- Max17048.FuelGauge.ReadVoltage uses the corrected conversion `Max17048.VoltageMv`, not the source's 32-bit wrapping product (see Findings). As written, raw readings above 54975 convert too low: 0xFFFF gives 824 mV, and 54976 gives 0 mV, which `batteryTask` then treats as a failed reading. `Max17048.VoltageMvAsWritten` and `Max17048.VoltageAgreesBelowWrap` state the as-written values and where they differ.
- Mcp4151.CommandByte: the register number goes into the low nibble. For register numbers 4 and above it would clash with the command bits, but only register 0 is used.
- DigitalPot.StrengthRange: strengths 0 and 1 map to 99, below the pot's minimum of 100, and nothing clamps from below. This is stated, not corrected.
- DigitalPot.Pot: the default strength comes from the global `strength`, which is a parameter.
- DigitalPot.Pot: a NULL mutex after the bus is attached is not modelled; the mutex-creation outcome is a parameter.
- Mcp4151Tasks.DigipotModule.RunTask requires a driver and a queue. A task that runs after a failed re-initialisation, which nulls the driver (src/mcp4151_tasks.cpp:90-122), dereferences a null driver and sends to a null queue in the source; that case is not modelled.
- Mcp4151Tasks.DigipotModule.Init is built on the corrected `Mcp4151.Pot.Begin` (see Findings), so it succeeds whenever the chip answers. As written, `begin` on a newly built driver always fails (`Mcp4151.BeginNeverSucceeds`), so the source's `initDigipotModule` never succeeds and the states reached by CreateTask, RunTask and Receive are unreachable in the program as written. They are modelled as the intended program would reach them.
- Mcp4151Tasks.DigipotModule and DigitalPot.Pot: failures of `new` returning null are not modelled.
- Mcp4151Tasks.ReportedAgreesWithDriver states that an increment reaching 255 is reported as a failure although the wiper moved. This is the source's behaviour and is not corrected.
- GpioExpander.Expander: the expander's initialisation, its status and event queue creation, and the task loop's delay are not modelled. The model assumes both queues exist, so the NULL-queue branch of `waitForButtonEvent` is not modelled.
- Bus transcripts of initialisation and task steps are not returned. DigitalPot.Pot.IsResponding and DigitalPot.Pot.Init return only their outcome, although they write 127, the restored value and 128 over SPI (the recorded `currentValue` gives the last of them). Mcp4151Tasks.DigipotModule.Init and RunTask return only their outcome and the reported position; the bytes their driver calls send are stated by those driver methods. DigitalPot.Pot.Transfer returns the answer byte, not the two bytes it clocks out.
- PulseGenerator.Generator.Init: `isPCA9685Present` is the parameter `present`. Initialisation returns only its outcome: the bytes of the `resetPCA9685` writes (MODE1 SLEEP, MODE1 auto-increment, MODE2 totem-pole output), of the default-frequency sequence and of the duty-cycle writes are not returned, though each write's success is a parameter.
- Control: the ADC task (src/adc_tasks.cpp), the AD7495 drivers and the debug monitor are not part of this model. `batteryConnectedFlag` is the parameter `connected` of Control.Controller.Cycle.

## Findings

| source | as written | input that shows it | evidently intended | confidence | as-written member | corrected member |
|---|---|---|---|---|---|---|
| lib/MAX17048/src/MAX17048.cpp:60 | `voltage * 78125UL` is formed in a 32-bit `unsigned long`, which wraps for raw values above 54975 (4.295 V) | raw VCELL 0xFFFF gives 824 mV instead of 5119 mV | the exact product, so every raw value converts to raw * 78125 / 1000000 mV | medium: only readings above 4.295 V wrap; not executed | Max17048.VoltageMvAsWritten, Max17048.VoltageWrapsAtFullScale | Max17048.VoltageMv |
| lib/MCP4151/src/MCP4151.cpp:23-24 | `begin` probes with `getWiper`, which returns 255 while `_initialized` is still false (lines 47-48) | a newly constructed driver with its mutex and a chip answering 0x40: `begin` returns false and the driver never initialises, so initDigipotModule always fails | probe with a direct wiper register read and initialise when the answer is not 255 | high; not executed | Mcp4151.Pot.BeginAsWritten, Mcp4151.BeginNeverSucceeds | Mcp4151.Pot.Begin |
