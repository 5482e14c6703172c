/**
 * The MAX17048 fuel-gauge driver (lib/MAX17048/src/MAX17048.cpp): unit
 * conversions, the alert-threshold encoding in CONFIG, the alert tests and
 * the big-endian register words. The I2C bus is a parameter: each register
 * read is `Some(word)` or `None` for a failed or timed-out transaction, each
 * write's outcome is a boolean, and every method returns the writes it
 * attempted, in order.
 */
module Max17048 {
  import opened Common

  const VCELL: bv8 := 0x02
  const SOC: bv8 := 0x04
  const VERSION: bv8 := 0x08
  const CONFIG: bv8 := 0x0C
  const STATUS: bv8 := 0x1A

  /** CONFIG bits 5-7: ALRT (5) and the other alert flags, cleared by every configuration write. */
  const ALERT_FLAGS: bv16 := 0x00E0
  /** CONFIG bit 5, the ALRT flag. */
  const ALRT: bv16 := 0x0020
  /** CONFIG bits 0-4, the ATHD field: 32 minus the alert threshold in percent. */
  const ATHD: bv16 := 0x001F
  /** STATUS bits 8-10 (VH, VL, RI). */
  const STATUS_ALERTS: bv16 := 0x0700
  const MAX_THRESHOLD: nat := 32

  /** One register write on the bus. */
  datatype RegWrite = RegWrite(reg: bv8, value: bv16)

  /** A register word as the two bytes sent after the register address, high byte first. */
  function WordBytes(v: bv16): (bytes: seq<bv8>)
    ensures |bytes| == 2
  {
    [((v >> 8) & 0xFF) as bv8, (v & 0xFF) as bv8]
  }

  /** The word reassembled from the two bytes read back, `(hi << 8) | lo`. */
  function WordOf(hi: bv8, lo: bv8): (v: bv16)
    ensures WordBytes(v) == [hi, lo]
  {
    (hi as bv16 << 8) | lo as bv16
  }

  /** Serialising and reassembling a word gives it back. */
  lemma WordRoundTrip(v: bv16)
    ensures WordOf(WordBytes(v)[0], WordBytes(v)[1]) == v
  {
  }

  /** The threshold is capped at 32 percent. */
  function CapThreshold(t: nat): (r: nat)
    ensures r <= MAX_THRESHOLD
    ensures r == t || (t > MAX_THRESHOLD && r == MAX_THRESHOLD)
  {
    if t > MAX_THRESHOLD then MAX_THRESHOLD else t
  }

  /**
   * The CONFIG word setAlertThreshold writes for threshold `t`: alert flags
   * cleared, ATHD replaced by 32 - t, the upper byte kept. For t = 0 the
   * value 32 does not fit in ATHD and lands in the ALRT bit.
   */
  function EncodeThreshold(config: bv16, t: nat): (r: bv16)
    requires t <= MAX_THRESHOLD
    ensures r & 0xFF00 == config & 0xFF00
    ensures t >= 1 ==> r & ALERT_FLAGS == 0 && (r & ATHD) as int == MAX_THRESHOLD - t
    ensures t == 0 ==> r & ALERT_FLAGS == ALRT && r & ATHD == 0
  {
    ((config & !ALERT_FLAGS) & 0xFFE0) | (MAX_THRESHOLD - t) as bv16
  }

  /** The threshold clearAlert reads back from CONFIG: 32 minus ATHD. */
  function DecodeThreshold(config: bv16): (t: nat)
    ensures 1 <= t <= MAX_THRESHOLD
  {
    MAX_THRESHOLD - (config & ATHD) as int
  }

  /** Decoding recovers every threshold from 1 to 32; a threshold of 0 comes back as 32. */
  lemma ThresholdRoundTrip(config: bv16, t: nat)
    requires t <= MAX_THRESHOLD
    ensures 1 <= t ==> DecodeThreshold(EncodeThreshold(config, t)) == t
    ensures t == 0 ==> DecodeThreshold(EncodeThreshold(config, t)) == MAX_THRESHOLD
  {
  }

  /** An alert is pending when CONFIG has ALRT set or STATUS has any of bits 8-10 set. */
  predicate AlertPending(config: bv16, status: bv16) {
    config & ALRT != 0 || status & STATUS_ALERTS != 0
  }

  /** VCELL in millivolts (78.125 uV per bit), computed exactly: at most 5119, so it fits in 16 bits. */
  function VoltageMv(raw: U16): (mv: nat)
    ensures mv <= 5119 && mv < TWO16
  {
    raw * 78125 / 1000000
  }

  /**
   * VCELL in millivolts as the driver computes it: the product is formed in
   * a 32-bit `unsigned long`, so it wraps for raw values above 54975.
   */
  function VoltageMvAsWritten(raw: U16): (mv: nat)
    ensures mv < TWO16
  {
    (raw * 78125) % TWO32 / 1000000
  }

  /** The largest raw reading whose product with 78125 fits in 32 bits. */
  const LAST_EXACT_RAW: int := 54975

  /** Below the wrap point the driver's conversion is exact; from there on it is not. */
  lemma VoltageAgreesBelowWrap(raw: U16)
    ensures raw <= LAST_EXACT_RAW ==> VoltageMvAsWritten(raw) == VoltageMv(raw)
    ensures raw > LAST_EXACT_RAW ==> VoltageMvAsWritten(raw) < VoltageMv(raw)
  {
    if raw > LAST_EXACT_RAW {
      assert TWO32 <= raw * 78125 < 2 * TWO32;
      assert (raw * 78125) % TWO32 == raw * 78125 - TWO32;
      assert VoltageMv(raw) >= 4295;
    }
  }

  /** A full-scale reading (5.119 V) comes out of the driver's conversion as 824 mV. */
  lemma VoltageWrapsAtFullScale()
    ensures VoltageMv(0xFFFF) == 5119
    ensures VoltageMvAsWritten(0xFFFF) == 824
  {
    assert 0xFFFF * 78125 == 5119921875;
    assert 5119921875 % TWO32 == 824954579;
  }

  /** The exact conversion never decreases as the raw reading grows; the driver's drops at the wrap. */
  lemma VoltageMonotone(a: U16, b: U16)
    requires a <= b
    ensures VoltageMv(a) <= VoltageMv(b)
    ensures VoltageMvAsWritten(LAST_EXACT_RAW + 1) < VoltageMvAsWritten(LAST_EXACT_RAW)
  {
    assert a * 78125 <= b * 78125;
    assert (LAST_EXACT_RAW + 1) * 78125 % TWO32 == 32704;
  }

  /** SOC in percent: the high byte of the register (1 % = 256). */
  function SocPercent(raw: U16): (p: nat)
    ensures p <= 255
  {
    raw / 256
  }

  /** A full-scale SOC reading is indistinguishable from the error code 255. */
  lemma SocFullScaleIsErrorCode(raw: U16)
    ensures SocPercent(raw) == 255 <==> raw >= 0xFF00
  {
  }

  /** The word written to CONFIG to clear the alert flags, keeping everything else. */
  function ClearedFlags(config: bv16): (r: bv16)
    ensures r & ALERT_FLAGS == 0 && r & !ALERT_FLAGS == config & !ALERT_FLAGS
    ensures r & ATHD == config & ATHD
  {
    config & !ALERT_FLAGS
  }

  class FuelGauge {
    /** Whether the constructor's mutex allocation succeeded. */
    const hasMutex: bool
    var initialized: bool

    ghost predicate Valid()
      reads this
    {
      initialized ==> hasMutex
    }

    /** The constructor: allocates the I2C mutex (`mutexCreated`) and starts uninitialised. */
    constructor (mutexCreated: bool)
      ensures Valid() && hasMutex == mutexCreated && !initialized
    {
      hasMutex := mutexCreated;
      initialized := false;
    }

    /**
     * setAlertThreshold (lib/MAX17048/src/MAX17048.cpp:90-117):
     * read-modify-write of CONFIG. Fails with no write when the guard
     * rejects or the read fails; otherwise succeeds iff the write does.
     */
    method SetAlertThreshold(threshold: nat, configRead: Option<bv16>, writeOk: bool)
      returns (ok: bool, writes: seq<RegWrite>)
      requires Valid()
      ensures !hasMutex || configRead.None? ==> !ok && writes == []
      ensures hasMutex && configRead.Some? ==>
                && writes == [RegWrite(CONFIG, EncodeThreshold(configRead.value, CapThreshold(threshold)))]
                && ok == writeOk
    {
      if !initialized && !hasMutex {
        return false, [];
      }
      var t := CapThreshold(threshold);
      if configRead.None? {
        return false, [];
      }
      var config := configRead.value;
      config := config & !ALERT_FLAGS;
      config := config & 0xFFE0;
      config := config | (MAX_THRESHOLD - t) as bv16;
      return writeOk, [RegWrite(CONFIG, config)];
    }

    /**
     * begin (lib/MAX17048/src/MAX17048.cpp:9-47): clear the alert flags and
     * STATUS, program the threshold, then become initialised if VERSION can
     * be read. Write failures are ignored, as in the source.
     */
    method Begin(alertThreshold: nat, configRead: Option<bv16>, statusRead: Option<bv16>,
                 thresholdConfigRead: Option<bv16>, versionRead: Option<bv16>)
      returns (writes: seq<RegWrite>)
      requires Valid()
      modifies this
      ensures Valid()
      ensures !hasMutex ==> writes == [] && !initialized
      ensures hasMutex ==> initialized == (old(initialized) || versionRead.Some?)
      ensures hasMutex ==>
                writes ==
                (if configRead.Some? then [RegWrite(CONFIG, ClearedFlags(configRead.value))] else [])
                + (if statusRead.Some? then [RegWrite(STATUS, 0)] else [])
                + (if thresholdConfigRead.Some?
                   then [RegWrite(CONFIG, EncodeThreshold(thresholdConfigRead.value, CapThreshold(alertThreshold)))]
                   else [])
    {
      if !hasMutex {
        return [];
      }
      var t := CapThreshold(alertThreshold);
      writes := [];
      if configRead.Some? {
        writes := writes + [RegWrite(CONFIG, configRead.value & !ALERT_FLAGS)];
      }
      if statusRead.Some? {
        writes := writes + [RegWrite(STATUS, 0)];
      }
      var _, thresholdWrites := SetAlertThreshold(t, thresholdConfigRead, true);
      writes := writes + thresholdWrites;
      if versionRead.Some? {
        initialized := true;
      }
    }

    /** readVoltage (lib/MAX17048/src/MAX17048.cpp:49-61): millivolts, or 0 when uninitialised or the read fails. */
    method ReadVoltage(vcellRead: Option<bv16>) returns (mv: nat)
      ensures mv == if initialized && vcellRead.Some? then VoltageMv(vcellRead.value as int) else 0
      ensures mv <= 5119
    {
      if !initialized || vcellRead.None? {
        return 0;
      }
      mv := VoltageMv(vcellRead.value as int);
    }

    /** readSOC (lib/MAX17048/src/MAX17048.cpp:63-75): percent, or 255 when uninitialised or the read fails. */
    method ReadSoc(socRead: Option<bv16>) returns (soc: nat)
      ensures soc == if initialized && socRead.Some? then SocPercent(socRead.value as int) else 255
      ensures soc <= 255
    {
      if !initialized || socRead.None? {
        return 255;
      }
      soc := SocPercent(socRead.value as int);
    }

    /** readVersion (lib/MAX17048/src/MAX17048.cpp:77-88): the VERSION word, or 0. */
    method ReadVersion(versionRead: Option<bv16>) returns (version: bv16)
      ensures version == if initialized && versionRead.Some? then versionRead.value else 0
    {
      if !initialized || versionRead.None? {
        return 0;
      }
      version := versionRead.value;
    }

    /**
     * isAlertActive (lib/MAX17048/src/MAX17048.cpp:119-148): CONFIG is read
     * first and STATUS only if ALRT is clear; any failed read means no alert.
     */
    method IsAlertActive(configRead: Option<bv16>, statusRead: Option<bv16>) returns (active: bool)
      ensures active <==> initialized && configRead.Some? &&
                          ((configRead.value & ALRT != 0) || (statusRead.Some? && statusRead.value & STATUS_ALERTS != 0))
      ensures active && statusRead.Some? ==> AlertPending(configRead.value, statusRead.value)
    {
      if !initialized || configRead.None? {
        return false;
      }
      if configRead.value & ALRT != 0 {
        return true;
      }
      if statusRead.None? {
        return false;
      }
      active := statusRead.value & STATUS_ALERTS != 0;
    }

    /**
     * clearAlert (lib/MAX17048/src/MAX17048.cpp:150-184): clear the CONFIG
     * alert flags and STATUS, then re-apply the threshold decoded from the
     * CONFIG word read. When that read fails the source decodes an
     * uninitialised variable; `indeterminate` stands for its value.
     * `reapplied` is the threshold handed to setAlertThreshold.
     */
    method ClearAlert(configRead: Option<bv16>, configWriteOk: bool, statusWriteOk: bool, indeterminate: bv16,
                      thresholdConfigRead: Option<bv16>, thresholdWriteOk: bool)
      returns (ok: bool, reapplied: nat, writes: seq<RegWrite>)
      requires Valid()
      ensures !initialized ==> !ok && writes == []
      ensures initialized ==>
                && (ok <==> configRead.Some? && configWriteOk && statusWriteOk && thresholdConfigRead.Some? && thresholdWriteOk)
                && reapplied == DecodeThreshold(if configRead.Some? then configRead.value else indeterminate)
                && writes ==
                     (if configRead.Some? then [RegWrite(CONFIG, ClearedFlags(configRead.value))] else [])
                     + [RegWrite(STATUS, 0)]
                     + (if thresholdConfigRead.Some?
                        then [RegWrite(CONFIG, EncodeThreshold(thresholdConfigRead.value, reapplied))]
                        else [])
    {
      if !initialized {
        return false, 0, [];
      }
      var success := true;
      var config := indeterminate;
      writes := [];
      if configRead.Some? {
        config := ClearedFlags(configRead.value);
        writes := writes + [RegWrite(CONFIG, config)];
        if !configWriteOk {
          success := false;
        }
      } else {
        success := false;
      }
      writes := writes + [RegWrite(STATUS, 0)];
      if !statusWriteOk {
        success := false;
      }
      reapplied := DecodeThreshold(config);
      var thresholdOk, thresholdWrites := SetAlertThreshold(reapplied, thresholdConfigRead, thresholdWriteOk);
      writes := writes + thresholdWrites;
      if !thresholdOk {
        success := false;
      }
      ok := success;
    }
  }

  /**
   * clearAlert keeps the configured threshold: when CONFIG holds the word
   * setAlertThreshold wrote for a threshold from 1 to 32, the threshold
   * re-applied is the same one.
   */
  lemma ClearAlertKeepsThreshold(config: bv16, t: nat)
    requires 1 <= t <= MAX_THRESHOLD
    ensures DecodeThreshold(ClearedFlags(EncodeThreshold(config, t))) == t
  {
    ThresholdRoundTrip(config, t);
  }
}
