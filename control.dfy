/**
 * The control loop's battery bookkeeping (src/main.cpp): the low-battery
 * flag with its 10 % / 15 % hysteresis band, the two charging flags derived
 * from the charger status, and the edge-triggered handling of the battery
 * switch. The battery module's answer is a parameter: whether a status was
 * received within the timeout, and the status itself.
 */
module Control {
  import opened Common
  import opened BatteryTasks

  /** A state of charge at or below this raises the low-battery flag. */
  const LOW_SOC: int := BATT_ALERT_THRESHOLD
  /** A state of charge at or above this lowers it again. */
  const RECOVERED_SOC: int := BATT_ALERT_THRESHOLD + 5

  /** The low-battery flag after one successful reading. */
  function LowBatteryNext(flag: bool, soc: U8): (r: bool)
    ensures soc <= LOW_SOC ==> r
    ensures soc >= RECOVERED_SOC ==> !r
    ensures LOW_SOC < soc < RECOVERED_SOC ==> r == flag
  {
    if soc <= LOW_SOC then true
    else if soc >= RECOVERED_SOC then false
    else flag
  }

  /** The flag after a run of successful readings, oldest first. */
  function LowAfter(flag: bool, socs: seq<U8>): bool
    decreases |socs|
  {
    if |socs| == 0 then flag
    else LowBatteryNext(LowAfter(flag, socs[..|socs| - 1]), socs[|socs| - 1])
  }

  /** Reading `i` is low and no later reading has recovered. */
  ghost predicate LowSince(socs: seq<U8>, i: int) {
    && 0 <= i < |socs|
    && socs[i] <= LOW_SOC
    && forall j :: i < j < |socs| ==> socs[j] < RECOVERED_SOC
  }

  /** No reading in `socs` has recovered. */
  ghost predicate NoRecovery(socs: seq<U8>) {
    forall j :: 0 <= j < |socs| ==> socs[j] < RECOVERED_SOC
  }

  /**
   * The hysteresis over a run of readings: the flag is up exactly when some
   * reading was at or below 10 % and none after it reached 15 %, or when it
   * was up before the run and no reading of the run reached 15 %. Readings
   * strictly inside the band never move it.
   */
  lemma {:induction false} LowAfterMeaning(flag: bool, socs: seq<U8>)
    ensures LowAfter(flag, socs) <==> (flag && NoRecovery(socs)) || exists i :: LowSince(socs, i)
    decreases |socs|
  {
    if |socs| > 0 {
      var n := |socs| - 1;
      var prefix := socs[..n];
      var last := socs[n];
      LowAfterMeaning(flag, prefix);
      if last <= LOW_SOC {
        assert LowSince(socs, n);
      } else if last >= RECOVERED_SOC {
        assert !NoRecovery(socs);
        forall i | 0 <= i < |socs|
          ensures !LowSince(socs, i)
        {
          if i < n {
            assert socs[n] >= RECOVERED_SOC;
          }
        }
      } else {
        if flag && NoRecovery(prefix) {
          assert NoRecovery(socs) by {
            forall j | 0 <= j < |socs|
              ensures socs[j] < RECOVERED_SOC
            {
              if j < n {
                assert socs[j] == prefix[j];
              }
            }
          }
        }
        if flag && NoRecovery(socs) {
          assert NoRecovery(prefix) by {
            forall j | 0 <= j < |prefix|
              ensures prefix[j] < RECOVERED_SOC
            {
              assert prefix[j] == socs[j];
            }
          }
        }
        if i :| LowSince(prefix, i) {
          assert LowSince(socs, i) by {
            forall j | i < j < |socs|
              ensures socs[j] < RECOVERED_SOC
            {
              if j < n {
                assert socs[j] == prefix[j];
              }
            }
          }
        }
        if i :| LowSince(socs, i) {
          assert i < n;
          assert LowSince(prefix, i) by {
            forall j | i < j < |prefix|
              ensures prefix[j] < RECOVERED_SOC
            {
              assert prefix[j] == socs[j];
            }
          }
        }
      }
    }
  }

  /**
   * The charging flags for a status: charging, and charge complete. They
   * are never both up, and both are down when not charging or on a charger
   * error.
   */
  function ChargingFlags(s: ChargingStatus): (r: (bool, bool))
    ensures r.0 <==> s == Charging
    ensures r.1 <==> s == ChargeComplete
    ensures !(r.0 && r.1)
    ensures s == NotCharging || s == ErrorStatus ==> !r.0 && !r.1
  {
    (s == Charging, s == ChargeComplete)
  }

  /**
   * Read back to the charger's pins: the charging flag is up iff CHRG is low
   * and STDBY high, the complete flag iff CHRG is high and STDBY low.
   */
  lemma ChargingFlagsFromPins(chrgHigh: bool, stdbyHigh: bool)
    ensures ChargingFlags(ChargingStatusOf(chrgHigh, stdbyHigh)) == (!chrgHigh && stdbyHigh, chrgHigh && !stdbyHigh)
  {
  }

  class Controller {
    /** lowBatteryFlag. */
    var lowBattery: bool
    /** isChargingFlag. */
    var isCharging: bool
    /** chargeCompleteFlag. */
    var chargeComplete: bool
    /** handleSwitchChange's static lastSwitchState. */
    var lastSwitchState: bool

    /** The globals' initial values: every flag down. */
    constructor ()
      ensures !lowBattery && !isCharging && !chargeComplete && !lastSwitchState
    {
      lowBattery, isCharging, chargeComplete, lastSwitchState := false, false, false, false;
    }

    /**
     * handleSwitchChange (src/main.cpp:57-84): acts only when the connected
     * flag differs from the last state it saw, and then remembers it; a
     * second call with the same flag does nothing.
     */
    method HandleSwitchChange(connected: bool) returns (acted: bool)
      modifies this`lastSwitchState
      ensures acted <==> connected != old(lastSwitchState)
      ensures lastSwitchState == connected
    {
      acted := false;
      if connected != lastSwitchState {
        lastSwitchState := connected;
        acted := true;
      }
    }

    /**
     * The battery half of a controlTask cycle (src/main.cpp:147-226): a
     * status received and marked successful sets the charging flags from the
     * charger status and steps the low-battery flag; a timeout or a failed
     * reading leaves every flag as it was.
     */
    method UpdateBatteryFlags(received: bool, status: BatteryStatus)
      modifies this`lowBattery, this`isCharging, this`chargeComplete
      ensures received && status.success ==>
                (isCharging, chargeComplete) == ChargingFlags(status.chrgStatus)
                && lowBattery == LowBatteryNext(old(lowBattery), status.soc)
      ensures !(received && status.success) ==>
                lowBattery == old(lowBattery) && isCharging == old(isCharging) && chargeComplete == old(chargeComplete)
    {
      if received && status.success {
        isCharging := status.chrgStatus == Charging;
        chargeComplete := status.chrgStatus == ChargeComplete;
        if status.soc <= BATT_ALERT_THRESHOLD {
          if !lowBattery {
            lowBattery := true;
          }
        } else if status.soc >= BATT_ALERT_THRESHOLD + 5 {
          if lowBattery {
            lowBattery := false;
          }
        }
      }
    }

    /**
     * One controlTask cycle (src/main.cpp:91-231) as far as these flags go:
     * the switch check comes first, then the battery result.
     */
    method Cycle(connected: bool, received: bool, status: BatteryStatus) returns (switchActed: bool)
      modifies this`lastSwitchState, this`lowBattery, this`isCharging, this`chargeComplete
      ensures switchActed <==> connected != old(lastSwitchState)
      ensures lastSwitchState == connected
      ensures received && status.success ==>
                (isCharging, chargeComplete) == ChargingFlags(status.chrgStatus)
                && lowBattery == LowBatteryNext(old(lowBattery), status.soc)
      ensures !(received && status.success) ==>
                lowBattery == old(lowBattery) && isCharging == old(isCharging) && chargeComplete == old(chargeComplete)
    {
      switchActed := HandleSwitchChange(connected);
      UpdateBatteryFlags(received, status);
    }
  }
}
