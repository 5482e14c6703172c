/**
 * The PCA9685 pulse generator (src/pulse_generator.cpp): the frequency
 * clamp, the MODE1 sleep / prescale / restart sequence, the per-channel PWM
 * registers, the enable pin, the change-gated update and initialisation
 * with its revert. The outcome of every I2C transaction is a parameter, and
 * each frequency change returns the writes it put on the bus, in order.
 */
module PulseGenerator {
  import opened Common

  const MODE1: U8 := 0x00
  const MODE2: U8 := 0x01
  const PRESCALE: U8 := 0xFE
  const LED0_ON_L: U8 := 0x06
  const RESTART: bv8 := 0x80
  const SLEEP: bv8 := 0x10
  const AI: bv8 := 0x20
  const OUTDRV: bv8 := 0x04
  const PULSE_CHANNEL_1: U8 := 6
  const PULSE_CHANNEL_2: U8 := 7
  const MIN_FREQ: int := 24
  const MAX_FREQ: int := 1526
  const DEFAULT_FREQ: U16 := 100
  /** A 50 % duty cycle: on at tick 0, off at tick 2048 of 4096. */
  const HALF_DUTY_OFF: U16 := 2048

  /** One I2C write: a single register, or the four LEDn registers of a channel from `base` on. */
  datatype I2cWrite = RegWrite(reg: U8, value: U8) | PwmWrite(base: U8, bytes: seq<U8>)

  /** The requested frequency forced into [24, 1526] Hz. */
  function ClampFrequency(freq: U16): (r: U16)
    ensures MIN_FREQ <= r <= MAX_FREQ
    ensures MIN_FREQ <= freq <= MAX_FREQ ==> r == freq
    ensures freq < MIN_FREQ ==> r == MIN_FREQ
    ensures freq > MAX_FREQ ==> r == MAX_FREQ
  {
    if freq < MIN_FREQ then MIN_FREQ else if freq > MAX_FREQ then MAX_FREQ else freq
  }

  /** Clamping twice is clamping once. */
  lemma ClampIdempotent(freq: U16)
    ensures ClampFrequency(ClampFrequency(freq)) == ClampFrequency(freq)
  {
  }

  /**
   * The prescaler for a clamped frequency, 25 MHz / (4096 f) - 1 rounded
   * by adding 1/2 and truncating, computed exactly:
   * floor((50000000 - 4096 f) / (8192 f)).
   */
  function Prescale(freq: U16): (p: int)
    requires MIN_FREQ <= freq <= MAX_FREQ
    ensures 3 <= p <= 253
  {
    PrescaleFits(freq);
    (50000000 - 4096 * freq) / (8192 * freq)
  }

  /** MODE1 for sleeping: RESTART cleared, SLEEP set, every other bit kept. */
  function SleepMode(mode: bv8): (m: bv8)
    ensures m & RESTART == 0 && m & SLEEP == SLEEP
    ensures m & !(RESTART | SLEEP) == mode & !(RESTART | SLEEP)
  {
    (mode & !RESTART) | SLEEP
  }

  /** MODE1 for the restart: RESTART set, every other bit kept. */
  function RestartMode(mode: bv8): (m: bv8)
    ensures m & RESTART == RESTART && m & !RESTART == mode & !RESTART
  {
    mode | RESTART
  }

  /** The frequency change's MODE1 / PRESCALE writes: sleep, prescaler, the old mode, the old mode with RESTART. */
  function ModeSequence(mode: bv8, prescale: U8): seq<I2cWrite> {
    [RegWrite(MODE1, SleepMode(mode) as int), RegWrite(PRESCALE, prescale),
     RegWrite(MODE1, mode as int), RegWrite(MODE1, RestartMode(mode) as int)]
  }

  /** The first LEDn register of a channel: 6 + 4 * channel in 8-bit arithmetic. */
  function ChannelBase(channel: U8): (b: U8)
    ensures channel < 62 ==> b == LED0_ON_L + 4 * channel
  {
    (LED0_ON_L + 4 * channel) % 256
  }

  /** The channels' register blocks are disjoint; the two pulse channels start at 0x1E and 0x22. */
  lemma ChannelsDisjoint(a: U8, b: U8)
    requires a < 16 && b < 16 && a != b
    ensures ChannelBase(a) + 4 <= ChannelBase(b) || ChannelBase(b) + 4 <= ChannelBase(a)
    ensures ChannelBase(PULSE_CHANNEL_1) == 0x1E && ChannelBase(PULSE_CHANNEL_2) == 0x22
  {
  }

  /** The four bytes written to a channel: ON low, ON high, OFF low, OFF high; they reassemble to `on` and `off`. */
  function PwmBytes(on: U16, off: U16): (bytes: seq<U8>)
    ensures |bytes| == 4
    ensures bytes[0] as int + 256 * (bytes[1] as int) == on && bytes[2] as int + 256 * (bytes[3] as int) == off
  {
    [on % 256, on / 256, off % 256, off / 256]
  }

  /** set50PercentDutyCycle's transaction for one channel. */
  function HalfDuty(channel: U8): I2cWrite {
    PwmWrite(ChannelBase(channel), PwmBytes(0, HALF_DUTY_OFF))
  }

  /** A 50 % duty cycle sets only bit 3 of OFF_H, so the output goes low at tick 2048. */
  lemma HalfDutyBytes()
    ensures PwmBytes(0, HALF_DUTY_OFF) == [0, 0, 0, 8]
  {
  }

  /** The bus outcomes of one setPulseFrequency: the MODE1 read, each write, each channel's duty cycle. */
  datatype FrequencyBus = FrequencyBus(
    mode1: Option<bv8>,
    sleepOk: bool,
    prescaleOk: bool,
    restoreOk: bool,
    restartOk: bool,
    channel1Ok: bool,
    channel2Ok: bool)

  /** The MODE1 / PRESCALE sequence went through, so the new frequency is recorded. */
  predicate Committed(bus: FrequencyBus) {
    bus.mode1.Some? && bus.sleepOk && bus.prescaleOk && bus.restoreOk && bus.restartOk
  }

  /** How many of the four sequence writes are attempted: each failure stops the sequence. */
  function Attempted(bus: FrequencyBus): (n: nat)
    ensures 1 <= n <= 4
    ensures n == 4 <==> bus.sleepOk && bus.prescaleOk && bus.restoreOk
  {
    if !bus.sleepOk then 1 else if !bus.prescaleOk then 2 else if !bus.restoreOk then 3 else 4
  }

  /** The duty-cycle writes after a committed change: channel 2 only if channel 1 succeeded. */
  function DutyWrites(bus: FrequencyBus): seq<I2cWrite> {
    [HalfDuty(PULSE_CHANNEL_1)] + if bus.channel1Ok then [HalfDuty(PULSE_CHANNEL_2)] else []
  }

  /** The bus outcomes of resetPCA9685: MODE1 sleep, MODE1 auto-increment, MODE2 totem pole, the MODE1 read-back. */
  datatype ResetBus = ResetBus(sleepOk: bool, autoIncrementOk: bool, mode2Ok: bool, readBackOk: bool)

  predicate ResetOk(bus: ResetBus) {
    bus.sleepOk && bus.autoIncrementOk && bus.mode2Ok && bus.readBackOk
  }

  /**
   * The MODE1 / PRESCALE part of setPulseFrequency
   * (src/pulse_generator.cpp:266-294): sleep, prescaler, old mode, restart,
   * stopping at the first failed write; `committed` iff all four succeed.
   */
  method WriteModeSequence(oldmode: bv8, prescale: U8, bus: FrequencyBus) returns (committed: bool, writes: seq<I2cWrite>)
    ensures committed <==> bus.sleepOk && bus.prescaleOk && bus.restoreOk && bus.restartOk
    ensures writes == ModeSequence(oldmode, prescale)[..Attempted(bus)]
  {
    var sequence := ModeSequence(oldmode, prescale);
    writes := [RegWrite(MODE1, ((oldmode & !RESTART) | SLEEP) as int)];
    if !bus.sleepOk {
      return false, writes;
    }
    writes := writes + [RegWrite(PRESCALE, prescale)];
    if !bus.prescaleOk {
      return false, writes;
    }
    writes := writes + [RegWrite(MODE1, oldmode as int)];
    if !bus.restoreOk {
      return false, writes;
    }
    writes := writes + [RegWrite(MODE1, (oldmode | RESTART) as int)];
    assert writes == sequence == sequence[..4];
    committed := bus.restartOk;
  }

  class Generator {
    /** i2cWire has been set (the first thing initialisation does). */
    var wireAttached: bool
    var currentFrequency: U16
    var currentlyEnabled: bool
    var initialized: bool
    /** The level of PULSE_ENABLE_PIN. */
    var enablePinHigh: bool
    var taskRunning: bool

    /** The module's statics before initialisation. */
    constructor ()
      ensures !wireAttached && currentFrequency == 0 && !currentlyEnabled && !initialized && !taskRunning
    {
      wireAttached, currentFrequency, currentlyEnabled, initialized := false, 0, false, false;
      enablePinHigh, taskRunning := false, false;
    }

    /**
     * setPulseFrequency (src/pulse_generator.cpp:237-304): fails without a
     * bus; otherwise clamps, reads MODE1 and runs the four-write sequence,
     * stopping at the first failure. Only a complete sequence records the
     * clamped frequency; the duty cycles are then re-applied, and the result
     * is whether both were.
     */
    method SetPulseFrequency(freq: U16, bus: FrequencyBus) returns (ok: bool, writes: seq<I2cWrite>)
      modifies this`currentFrequency
      ensures !wireAttached || bus.mode1.None? ==> !ok && writes == []
      ensures ok <==> wireAttached && Committed(bus) && bus.channel1Ok && bus.channel2Ok
      ensures currentFrequency == if wireAttached && Committed(bus) then ClampFrequency(freq) else old(currentFrequency)
      ensures wireAttached && bus.mode1.Some? ==>
                writes == ModeSequence(bus.mode1.value, Prescale(ClampFrequency(freq)))[..Attempted(bus)]
                          + if Committed(bus) then DutyWrites(bus) else []
    {
      if !wireAttached {
        return false, [];
      }
      var f := freq;
      if f < MIN_FREQ {
        f := MIN_FREQ;
      }
      if f > MAX_FREQ {
        f := MAX_FREQ;
      }
      var prescale := Prescale(f);
      if bus.mode1.None? {
        return false, [];
      }
      var committed;
      committed, writes := WriteModeSequence(bus.mode1.value, prescale, bus);
      if !committed {
        return false, writes;
      }
      currentFrequency := f;
      writes := writes + [HalfDuty(PULSE_CHANNEL_1)];
      ok := bus.channel1Ok;
      if ok {
        writes := writes + [HalfDuty(PULSE_CHANNEL_2)];
        ok := bus.channel2Ok;
      }
    }

    /** enablePulseGenerator (src/pulse_generator.cpp:306-322): only after initialisation; drives the pin and records the state. */
    method Enable(enable: bool) returns (ok: bool)
      modifies this`currentlyEnabled, this`enablePinHigh
      ensures ok == initialized
      ensures ok ==> currentlyEnabled == enable && enablePinHigh == enable
      ensures !ok ==> currentlyEnabled == old(currentlyEnabled) && enablePinHigh == old(enablePinHigh)
    {
      if !initialized {
        return false;
      }
      enablePinHigh := enable;
      currentlyEnabled := enable;
      return true;
    }

    /**
     * updatePulseGenerator (src/pulse_generator.cpp:324-338): enable only on
     * a change of `pulseEn`; set the frequency only when `pFrequency` differs
     * from the recorded one and lies in [24, 1526]. Both are attempted
     * whatever the other's outcome, and the result is their conjunction.
     */
    method Update(pulseEn: bool, pFrequency: U16, bus: FrequencyBus) returns (ok: bool, writes: seq<I2cWrite>)
      modifies this`currentlyEnabled, this`enablePinHigh, this`currentFrequency
      ensures var toggles := pulseEn != old(currentlyEnabled);
              var retunes := pFrequency != old(currentFrequency) && MIN_FREQ <= pFrequency <= MAX_FREQ;
              && currentlyEnabled == (if toggles && initialized then pulseEn else old(currentlyEnabled))
              && enablePinHigh == (if toggles && initialized then pulseEn else old(enablePinHigh))
              && (!retunes ==> writes == [] && currentFrequency == old(currentFrequency))
              && (retunes && (!wireAttached || bus.mode1.None?) ==> writes == [])
              && (retunes && wireAttached && bus.mode1.Some? ==>
                    writes == ModeSequence(bus.mode1.value, Prescale(pFrequency))[..Attempted(bus)]
                              + if Committed(bus) then DutyWrites(bus) else [])
              && (retunes ==> currentFrequency == (if wireAttached && Committed(bus) then pFrequency else old(currentFrequency)))
              && (ok <==> (!toggles || initialized) && (!retunes || (wireAttached && Committed(bus) && bus.channel1Ok && bus.channel2Ok)))
    {
      var success := true;
      if pulseEn != currentlyEnabled {
        var enabled := Enable(pulseEn);
        success := success && enabled;
      }
      writes := [];
      if pFrequency != currentFrequency && MIN_FREQ <= pFrequency <= MAX_FREQ {
        var retuned;
        retuned, writes := SetPulseFrequency(pFrequency, bus);
        success := success && retuned;
      }
      ok := success;
    }

    /**
     * initPulseGenerator (src/pulse_generator.cpp:187-235): attach the bus,
     * create the mutex, find and reset the chip, then mark initialised
     * before setting the default frequency and both duty cycles; a failure
     * in those last steps reverts the mark. A failure before the mark
     * leaves the flag as it was.
     */
    method Init(mutexCreated: bool, present: bool, reset: ResetBus, bus: FrequencyBus,
                duty1Ok: bool, duty2Ok: bool) returns (ok: bool)
      modifies this`wireAttached, this`enablePinHigh, this`initialized, this`currentFrequency
      ensures wireAttached
      ensures var reachesMark := mutexCreated && present && ResetOk(reset);
              && (ok <==> reachesMark && Committed(bus) && bus.channel1Ok && bus.channel2Ok && duty1Ok && duty2Ok)
              && initialized == (if reachesMark then ok else old(initialized))
              && currentFrequency == (if reachesMark && Committed(bus) then DEFAULT_FREQ else old(currentFrequency))
              && enablePinHigh == (if mutexCreated then false else old(enablePinHigh))
    {
      wireAttached := true;
      if !mutexCreated {
        return false;
      }
      enablePinHigh := false;
      if !present || !ResetStep(reset) {
        return false;
      }
      initialized := true;
      var retuned, writes := SetPulseFrequency(DEFAULT_FREQ, bus);
      if !retuned {
        initialized := false;
        return false;
      }
      if !duty1Ok || !duty2Ok {
        initialized := false;
        return false;
      }
      return true;
    }

    /** createPulseGeneratorTask (src/pulse_generator.cpp:359-385): only after initialisation. */
    method CreateTask(createOk: bool) returns (ok: bool)
      modifies this`taskRunning
      ensures ok <==> initialized && createOk
      ensures taskRunning == (old(taskRunning) || ok)
    {
      if !initialized || !createOk {
        return false;
      }
      taskRunning := true;
      return true;
    }
  }

  /** resetPCA9685 (src/pulse_generator.cpp:149-185): succeeds iff every step does, stopping at the first failure. */
  function ResetStep(reset: ResetBus): (ok: bool)
    ensures ok == ResetOk(reset)
  {
    if !reset.sleepOk then false
    else if !reset.autoIncrementOk then false
    else if !reset.mode2Ok then false
    else reset.readBackOk
  }

  /** Every clamped frequency has a prescaler that fits in a byte: 253 at 24 Hz down to 3 at 1526 Hz. */
  lemma PrescaleFits(freq: U16)
    requires MIN_FREQ <= freq <= MAX_FREQ
    ensures 3 <= (50000000 - 4096 * freq) / (8192 * freq) <= 253
  {
    var d := 8192 * freq;
    var n := 50000000 - 4096 * freq;
    var q := n / d;
    assert q * d <= n < (q + 1) * d;
    if q >= 254 {
      MulMonotone(254, q, d);
    }
    if q <= 2 {
      MulMonotone(q + 1, 3, d);
    }
  }

  lemma MulMonotone(a: int, b: int, c: nat)
    requires a <= b
    ensures a * c <= b * c
  {
  }
}
