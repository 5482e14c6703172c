/**
 * The digital-pot front end (src/digital_pot.cpp): a clamped wiper value,
 * the strength-to-wiper mapping, the responsiveness probe run at start-up
 * and the task that follows the global `strength`. Each SPI transfer's
 * outcome is a parameter: whether the mutex was taken within 100 ms and, for
 * reads, the byte the chip answered.
 */
module DigitalPot {
  import opened Common

  const POT_MIN_VALUE: int := 100
  const POT_MAX_VALUE: int := 128
  const POT_DEFAULT_VALUE: U8 := 128
  const STRENGTH_MIN_VALUE: int := 10
  const STRENGTH_MAX_VALUE: int := 250
  /** The byte every failed transfer returns. */
  const NO_ANSWER: U8 := 0xFF
  /** The value written to probe the chip at start-up. */
  const PROBE_VALUE: U8 := 127

  /** The wiper value a set writes: values above 128 are lowered to 128. */
  function Clamp(value: U8): (r: U8)
    ensures r <= POT_MAX_VALUE
    ensures value <= POT_MAX_VALUE ==> r == value
    ensures value > POT_MAX_VALUE ==> r == POT_MAX_VALUE
  {
    if value > POT_MAX_VALUE then POT_MAX_VALUE else value
  }

  /**
   * C integer division, which truncates toward zero (for a positive
   * divisor): the remainder has the dividend's sign and is smaller than the
   * divisor, and the quotient is never further from zero than the dividend.
   */
  function DivTrunc(a: int, b: int): (q: int)
    requires b > 0
    ensures a >= 0 ==> 0 <= a - q * b < b
    ensures a < 0 ==> -b < a - q * b <= 0
    ensures a >= 0 ==> 0 <= q <= a
    ensures a < 0 ==> a <= q <= 0
  {
    if a >= 0 then DivBounds(a, b); a / b
    else DivBounds(-a, b); -((-a) / b)
  }

  /** Euclidean division of a natural number: the remainder is below the divisor and the quotient at most the dividend. */
  lemma DivBounds(n: nat, b: int)
    requires b > 0
    ensures 0 <= n - (n / b) * b < b
    ensures 0 <= n / b <= n
  {
    var q := n / b;
    assert n - q * b == n % b;
    MulAtLeast(q, b);
  }

  /** A natural number times a positive one is at least the first. */
  lemma MulAtLeast(q: nat, b: int)
    requires b > 0
    ensures q <= q * b
  {
    assert q * b == q * (b - 1) + q;
  }

  /**
   * The wiper value for a strength: Arduino's `map` from 10..250 onto
   * 100..128, `(x - 10) * (128 - 100) / (250 - 10) + 100` with C's
   * truncating division.
   */
  function StrengthToPot(strength: U8): int {
    DivTrunc((strength - STRENGTH_MIN_VALUE) * 28, 240) + POT_MIN_VALUE
  }

  /**
   * Strengths in 10..250 land in 100..128, their ends on the ends. Outside
   * that range the mapping extrapolates: 251..255 still give 128, while 0
   * and 1 give 99, below the pot's minimum, and nothing clamps from below.
   */
  lemma StrengthRange(strength: U8)
    ensures STRENGTH_MIN_VALUE <= strength <= STRENGTH_MAX_VALUE ==> POT_MIN_VALUE <= StrengthToPot(strength) <= POT_MAX_VALUE
    ensures StrengthToPot(STRENGTH_MIN_VALUE) == POT_MIN_VALUE && StrengthToPot(STRENGTH_MAX_VALUE) == POT_MAX_VALUE
    ensures strength > STRENGTH_MAX_VALUE ==> StrengthToPot(strength) == POT_MAX_VALUE
    ensures strength < 2 ==> StrengthToPot(strength) == POT_MIN_VALUE - 1
    ensures 99 <= StrengthToPot(strength) <= POT_MAX_VALUE
  {
    var d := (strength - STRENGTH_MIN_VALUE) * 28;
    if d >= 0 {
      QuotientBound(d, 6860, 28);
      if strength > STRENGTH_MAX_VALUE {
        assert d >= 6748;
        assert 6748 / 240 == 28;
        DivMonotone(6748, d, 240);
      }
    } else {
      QuotientBound(-d, 280, 1);
      if strength < 2 {
        assert -d >= 252;
        assert 252 / 240 == 1;
        DivMonotone(252, -d, 240);
      }
    }
  }

  /** A quotient by 240 of at most `bound` is at most `q` when `bound` is below `240 * (q + 1)`. */
  lemma QuotientBound(x: nat, bound: nat, q: nat)
    requires x <= bound < 240 * (q + 1)
    ensures x / 240 <= q
  {
  }

  /** The mapping never decreases as the strength grows. */
  lemma StrengthMonotone(a: U8, b: U8)
    requires a <= b
    ensures StrengthToPot(a) <= StrengthToPot(b)
  {
    var da := (a - STRENGTH_MIN_VALUE) * 28;
    var db := (b - STRENGTH_MIN_VALUE) * 28;
    assert da <= db;
    if 0 <= da {
      DivMonotone(da, db, 240);
    } else if db < 0 {
      DivMonotone(-db, -da, 240);
    }
  }

  lemma DivMonotone(x: nat, y: nat, d: nat)
    requires x <= y && d == 240
    ensures x / d <= y / d
  {
  }

  class Pot {
    /** Whether spiInstance has been set (the first thing initialisation does). */
    var spiAttached: bool
    var currentValue: U8
    var initialized: bool
    /** The digital-pot task's last seen strength, once the task exists. */
    var taskRunning: bool
    var lastStrength: U8

    /** The module's statics before initialisation. */
    constructor ()
      ensures !spiAttached && currentValue == POT_DEFAULT_VALUE && !initialized && !taskRunning
    {
      spiAttached := false;
      currentValue := POT_DEFAULT_VALUE;
      initialized := false;
      taskRunning := false;
      lastStrength := 0;
    }

    /**
     * spiTransfer (src/digital_pot.cpp:18-52): the byte clocked in with the
     * second byte, 0xFF without an attached bus or the mutex.
     */
    method Transfer(acquired: bool, answer: U8) returns (value: U8)
      ensures value == if spiAttached && acquired then answer else NO_ANSWER
    {
      if !spiAttached {
        return NO_ANSWER;
      }
      value := NO_ANSWER;
      if acquired {
        value := answer;
      }
    }

    /**
     * setDigitalPotValue (src/digital_pot.cpp:117-138): with a bus attached,
     * the clamped value is recorded and success reported whether or not the
     * transfer went through. `written` is the value sent to the chip.
     */
    method SetValue(value: U8, acquired: bool) returns (ok: bool, written: Option<U8>)
      modifies this`currentValue
      ensures ok == spiAttached
      ensures currentValue == if ok then Clamp(value) else old(currentValue)
      ensures written == if ok && acquired then Some(Clamp(value)) else None
    {
      if !spiAttached {
        return false, None;
      }
      var v := value;
      if v > POT_MAX_VALUE {
        v := POT_MAX_VALUE;
      }
      var _ := Transfer(acquired, 0);
      currentValue := v;
      written := if acquired then Some(v) else None;
      ok := true;
    }

    /** readDigitalPotValue (src/digital_pot.cpp:140-151): the chip's answer to the read command, or 0xFF. */
    method ReadValue(acquired: bool, answer: U8) returns (value: U8)
      ensures value == if spiAttached && acquired then answer else NO_ANSWER
    {
      if !spiAttached {
        return NO_ANSWER;
      }
      value := Transfer(acquired, answer);
    }

    /**
     * isDigitalPotResponding (src/digital_pot.cpp:55-81): read the value,
     * write 127, read it back; the probe fails iff the write fails or the
     * read-back is 0xFF, and a successful probe restores the first value when
     * it was read.
     */
    method IsResponding(firstAcquired: bool, firstAnswer: U8, probeAcquired: bool,
                        backAcquired: bool, backAnswer: U8, restoreAcquired: bool) returns (ok: bool)
      modifies this`currentValue
      ensures ok <==> spiAttached && backAcquired && backAnswer != NO_ANSWER
      ensures !spiAttached ==> currentValue == old(currentValue)
      ensures spiAttached ==>
                currentValue == if ok && firstAcquired && firstAnswer != NO_ANSWER then Clamp(firstAnswer) else PROBE_VALUE
    {
      var testValue := ReadValue(firstAcquired, firstAnswer);
      var probed, w1 := SetValue(PROBE_VALUE, probeAcquired);
      if !probed {
        return false;
      }
      var readback := ReadValue(backAcquired, backAnswer);
      if readback == NO_ANSWER {
        return false;
      }
      if testValue != NO_ANSWER {
        var restored, w2 := SetValue(testValue, restoreAcquired);
      }
      return true;
    }

    /**
     * initDigitalPot (src/digital_pot.cpp:83-115): attach the bus, create
     * the mutex, probe, write the default value; initialised iff every step
     * passes. The bus stays attached even when a later step fails.
     */
    method Init(mutexCreated: bool, firstAcquired: bool, firstAnswer: U8, probeAcquired: bool,
                backAcquired: bool, backAnswer: U8, restoreAcquired: bool, defaultAcquired: bool)
      returns (ok: bool)
      modifies this`spiAttached, this`currentValue, this`initialized
      ensures spiAttached
      ensures ok <==> mutexCreated && backAcquired && backAnswer != NO_ANSWER
      ensures initialized == (old(initialized) || ok)
      ensures ok ==> currentValue == POT_DEFAULT_VALUE
      ensures mutexCreated && !ok ==> currentValue == PROBE_VALUE
      ensures !mutexCreated ==> currentValue == old(currentValue)
    {
      spiAttached := true;
      if !mutexCreated {
        return false;
      }
      var responding := IsResponding(firstAcquired, firstAnswer, probeAcquired, backAcquired, backAnswer, restoreAcquired);
      if !responding {
        return false;
      }
      var defaulted, written := SetValue(POT_DEFAULT_VALUE, defaultAcquired);
      if !defaulted {
        return false;
      }
      initialized := true;
      return true;
    }

    /**
     * updateDigitalPotFromStrength (src/digital_pot.cpp:153-165): map the
     * strength and set the pot only when the mapped value differs from the
     * current one.
     */
    method UpdateFromStrength(strength: U8, acquired: bool) returns (ok: bool, written: Option<U8>)
      modifies this`currentValue
      ensures var target := StrengthToPot(strength) % 256;
              && (target == old(currentValue) ==> ok && written == None && currentValue == old(currentValue))
              && (target != old(currentValue) ==>
                    ok == spiAttached
                    && currentValue == (if spiAttached then Clamp(target) else old(currentValue))
                    && written == (if spiAttached && acquired then Some(Clamp(target)) else None))
    {
      var potValue: U8 := StrengthToPot(strength) % 256;
      if potValue != currentValue {
        ok, written := SetValue(potValue, acquired);
        return;
      }
      return true, None;
    }

    /** createDigitalPotTask (src/digital_pot.cpp:192-218): only after initialisation; the task starts from the current strength. */
    method CreateTask(strength: U8, createOk: bool) returns (ok: bool)
      modifies this`taskRunning, this`lastStrength
      ensures ok <==> initialized && createOk
      ensures ok ==> taskRunning && lastStrength == strength
      ensures !ok ==> taskRunning == old(taskRunning) && lastStrength == old(lastStrength)
    {
      if !initialized || !createOk {
        return false;
      }
      taskRunning, lastStrength := true, strength;
      return true;
    }

    /**
     * One pass of digitalPotTask's loop (src/digital_pot.cpp:176-185): a
     * change of strength is recorded and passed to the update, which sets
     * the pot to the mapped value when that differs from the current one
     * and a bus is attached.
     */
    method TaskStep(strength: U8, acquired: bool) returns (written: Option<U8>)
      requires taskRunning
      modifies this`lastStrength, this`currentValue
      ensures lastStrength == strength
      ensures strength == old(lastStrength) ==> written == None && currentValue == old(currentValue)
      ensures strength != old(lastStrength) ==>
                var target := StrengthToPot(strength);
                && currentValue == (if target != old(currentValue) && spiAttached then target else old(currentValue))
                && written == (if target != old(currentValue) && spiAttached && acquired then Some(target) else None)
    {
      written := None;
      if strength != lastStrength {
        lastStrength := strength;
        MappedValueFits(strength);
        var ok;
        ok, written := UpdateFromStrength(strength, acquired);
      }
    }
  }

  /** The mapped value always fits in a byte and within the clamp, so the cast and the clamp change nothing. */
  lemma MappedValueFits(strength: U8)
    ensures 0 <= StrengthToPot(strength) < 256
    ensures Clamp(StrengthToPot(strength) % 256) == StrengthToPot(strength)
  {
    StrengthRange(strength);
    var v := StrengthToPot(strength);
    assert v % 256 == v;
  }
}
