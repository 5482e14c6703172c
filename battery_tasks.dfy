/**
 * The battery module (src/battery_tasks.cpp): the TP4056 charger pins
 * decoded into a charging status, the active-low battery switch, and the
 * one-shot battery task with its false-alert retry sequence. The fuel
 * gauge's answers are parameters here (the values `readVoltage`, `readSOC`
 * and each `isAlertActive` return); the task's observable behaviour is the
 * status it queues and the sequence of driver calls it makes.
 */
module BatteryTasks {
  import opened Common

  /** BATT_ALERT_THRESHOLD, in percent. */
  const BATT_ALERT_THRESHOLD: int := 10
  /** A state of charge above this makes an active alert a false one. */
  const FALSE_ALERT_SOC: int := BATT_ALERT_THRESHOLD + 5

  datatype ChargingStatus = Charging | ChargeComplete | NotCharging | ErrorStatus

  /** BatteryStatus_t. */
  datatype BatteryStatus = BatteryStatus(
    voltage: U16,
    soc: U8,
    isAlert: bool,
    chrgStatus: ChargingStatus,
    switchState: bool,
    success: bool)

  /** The fuel-gauge driver calls the module makes. */
  datatype GaugeCall = ReadVoltage | ReadSoc | IsAlertActive | ClearAlert | Begin(threshold: int)

  /** getChargingStatus: both pins are active low (CHRG low = charging, STDBY low = complete). */
  function ChargingStatusOf(chrgHigh: bool, stdbyHigh: bool): ChargingStatus {
    if !chrgHigh && stdbyHigh then Charging
    else if chrgHigh && !stdbyHigh then ChargeComplete
    else if chrgHigh && stdbyHigh then NotCharging
    else ErrorStatus
  }

  /** The pin levels (CHRG high, STDBY high) that read as `s`. */
  function PinsFor(s: ChargingStatus): (bool, bool) {
    match s
    case Charging => (false, true)
    case ChargeComplete => (true, false)
    case NotCharging => (true, true)
    case ErrorStatus => (false, false)
  }

  /** Each of the four statuses comes from exactly one pair of pin levels. */
  lemma ChargingStatusBijective(chrgHigh: bool, stdbyHigh: bool, s: ChargingStatus)
    ensures ChargingStatusOf(PinsFor(s).0, PinsFor(s).1) == s
    ensures PinsFor(ChargingStatusOf(chrgHigh, stdbyHigh)) == (chrgHigh, stdbyHigh)
  {
  }

  /** The enum's numbering (CHARGING = 0 … ERROR_STATUS = 3). */
  function Ordinal(s: ChargingStatus): (n: int)
    ensures 0 <= n < 4
  {
    match s
    case Charging => 0
    case ChargeComplete => 1
    case NotCharging => 2
    case ErrorStatus => 3
  }

  /** getChargingStatusString on the enum's integer value: any value outside the four is "Unknown". */
  function ChargingStatusString(code: int): string {
    if code == 0 then "Charging"
    else if code == 1 then "Charge Complete"
    else if code == 2 then "Not Charging"
    else if code == 3 then "Error"
    else "Unknown"
  }

  /** Distinct statuses have distinct names, none of them "Unknown". */
  lemma StatusStringsDistinct(a: ChargingStatus, b: ChargingStatus, code: int)
    ensures a != b ==> ChargingStatusString(Ordinal(a)) != ChargingStatusString(Ordinal(b))
    ensures ChargingStatusString(Ordinal(a)) != "Unknown"
    ensures !(0 <= code < 4) ==> ChargingStatusString(code) == "Unknown"
  {
  }

  /** readSwitchState and the switch interrupt: the switch pin is low when the battery is connected. */
  function SwitchState(pinHigh: bool): bool {
    !pinHigh
  }

  /** A reading is usable iff the voltage is positive and the SOC is not the driver's error code. */
  predicate ReadingValid(voltage: U16, soc: U8) {
    voltage > 0 && soc != 255
  }

  /**
   * The driver calls of one battery task: the two readings, then for a
   * valid reading an alert test; a false alert (active with SOC above 15 %)
   * is cleared and re-tested, and if it persists the gauge is re-begun and
   * tested a last time.
   */
  function GaugeCalls(valid: bool, soc: U8, firstAlert: bool, alertAfterClear: bool): seq<GaugeCall> {
    [ReadVoltage, ReadSoc]
    + if !valid then []
      else [IsAlertActive]
           + if !(firstAlert && soc > FALSE_ALERT_SOC) then []
             else [ClearAlert, IsAlertActive]
                  + if alertAfterClear then [Begin(BATT_ALERT_THRESHOLD), IsAlertActive] else []
  }

  /**
   * The retry sequence is bounded and ordered: a clear can only be the
   * fourth call and a re-begin only the sixth, so there is at most one of
   * each and a re-begin always follows a clear; a clear happens exactly for
   * a valid reading with an active alert and SOC above 15 %, a re-begin
   * exactly when the alert survives the clear.
   */
  lemma RetryBounded(valid: bool, soc: U8, firstAlert: bool, alertAfterClear: bool)
    ensures var calls := GaugeCalls(valid, soc, firstAlert, alertAfterClear);
            && calls[..2] == [ReadVoltage, ReadSoc]
            && (forall i :: 0 <= i < |calls| && calls[i] == ClearAlert ==> i == 3)
            && (forall i :: 0 <= i < |calls| && calls[i].Begin? ==> i == 5)
            && (ClearAlert in calls <==> valid && firstAlert && soc > FALSE_ALERT_SOC)
            && (Begin(BATT_ALERT_THRESHOLD) in calls <==> ClearAlert in calls && alertAfterClear)
            && (!valid ==> calls == [ReadVoltage, ReadSoc])
  {
    var calls := GaugeCalls(valid, soc, firstAlert, alertAfterClear);
    if !valid {
      assert calls == [ReadVoltage, ReadSoc];
    } else if !(firstAlert && soc > FALSE_ALERT_SOC) {
      assert calls == [ReadVoltage, ReadSoc, IsAlertActive];
    } else if alertAfterClear {
      assert calls == [ReadVoltage, ReadSoc, IsAlertActive, ClearAlert, IsAlertActive, Begin(BATT_ALERT_THRESHOLD), IsAlertActive];
    } else {
      assert calls == [ReadVoltage, ReadSoc, IsAlertActive, ClearAlert, IsAlertActive];
    }
  }

  /** The alert flag the task reports: the result of the last alert test it made. */
  function FinalAlert(valid: bool, soc: U8, firstAlert: bool, alertAfterClear: bool, alertAfterBegin: bool): bool {
    if !valid then false
    else if !(firstAlert && soc > FALSE_ALERT_SOC) then firstAlert
    else if alertAfterClear then alertAfterBegin
    else false
  }

  /** The number of alert tests in a call sequence. */
  function AlertTests(calls: seq<GaugeCall>): nat {
    if |calls| == 0 then 0
    else AlertTests(calls[..|calls| - 1]) + if calls[|calls| - 1] == IsAlertActive then 1 else 0
  }

  /**
   * The reported alert means what the task last learned: for a valid
   * reading it is the answer to the last alert test in the call sequence
   * (the alert tests answer `firstAlert`, `alertAfterClear` and
   * `alertAfterBegin` in turn), so an alert reported above 15 % has survived
   * both the clear and the re-begin; an invalid reading makes no test and
   * reports none.
   */
  lemma {:induction false} FinalAlertIsLastTest(valid: bool, soc: U8, firstAlert: bool, alertAfterClear: bool, alertAfterBegin: bool)
    ensures var tests := AlertTests(GaugeCalls(valid, soc, firstAlert, alertAfterClear));
            && (valid ==> 1 <= tests <= 3)
            && (valid ==> FinalAlert(valid, soc, firstAlert, alertAfterClear, alertAfterBegin)
                            == [firstAlert, alertAfterClear, alertAfterBegin][tests - 1])
            && (!valid ==> tests == 0)
    ensures FinalAlert(valid, soc, firstAlert, alertAfterClear, alertAfterBegin) && soc > FALSE_ALERT_SOC ==>
              valid && firstAlert && alertAfterClear && alertAfterBegin
    ensures !valid ==> !FinalAlert(valid, soc, firstAlert, alertAfterClear, alertAfterBegin)
  {
    var calls := GaugeCalls(valid, soc, firstAlert, alertAfterClear);
    var c2 := [ReadVoltage, ReadSoc];
    assert AlertTests(c2[..1]) == 0;
    assert AlertTests(c2) == 0;
    var c3 := c2 + [IsAlertActive];
    assert c3[..2] == c2;
    assert AlertTests(c3) == 1;
    var c4 := c3 + [ClearAlert];
    assert c4[..3] == c3;
    assert AlertTests(c4) == 1;
    var c5 := c4 + [IsAlertActive];
    assert c5[..4] == c4;
    assert AlertTests(c5) == 2;
    var c6 := c5 + [Begin(BATT_ALERT_THRESHOLD)];
    assert c6[..5] == c5;
    assert AlertTests(c6) == 2;
    var c7 := c6 + [IsAlertActive];
    assert c7[..6] == c6;
    assert AlertTests(c7) == 3;
    if !valid {
      assert calls == c2;
    } else if !(firstAlert && soc > FALSE_ALERT_SOC) {
      assert calls == c3;
    } else if alertAfterClear {
      assert calls == c7;
    } else {
      assert calls == c5;
    }
  }

  class BatteryModule {
    /** fuelGaugeInstance is non-null. */
    var gaugeCreated: bool
    /** batteryQueue is a created queue. */
    var queueCreated: bool
    /** The queue's single slot. */
    var slot: Option<BatteryStatus>
    /** batteryConnectedFlag, shared with the control loop. */
    var batteryConnected: bool
    /** Battery tasks created and not yet run. */
    var pendingTasks: nat

    ghost predicate Valid()
      reads this
    {
      !queueCreated ==> slot == None
    }

    constructor ()
      ensures Valid() && !gaugeCreated && !queueCreated && pendingTasks == 0
    {
      gaugeCreated, queueCreated, slot, batteryConnected, pendingTasks := false, false, None, false, 0;
    }

    /** switchChangeISR (src/battery_tasks.cpp:21-24): the flag follows the inverted switch pin. */
    method SwitchChangeIsr(pinHigh: bool)
      modifies this`batteryConnected
      ensures batteryConnected == SwitchState(pinHigh)
    {
      batteryConnected := !pinHigh;
    }

    /**
     * initBatteryModule (src/battery_tasks.cpp:142-196): sample the switch,
     * begin the gauge with the 10 % threshold, clear any alert and create the
     * queue; without a queue the gauge instance is dropped again.
     */
    method Init(switchHigh: bool, queueOk: bool) returns (ok: bool, calls: seq<GaugeCall>)
      modifies this`gaugeCreated, this`queueCreated, this`slot, this`batteryConnected
      ensures Valid()
      ensures ok == queueOk && gaugeCreated == ok && queueCreated == ok && slot == None
      ensures batteryConnected == SwitchState(switchHigh)
      ensures calls == [Begin(BATT_ALERT_THRESHOLD), ClearAlert]
    {
      gaugeCreated := true;
      batteryConnected := !switchHigh;
      calls := [Begin(BATT_ALERT_THRESHOLD), ClearAlert];
      if !queueOk {
        gaugeCreated, queueCreated, slot := false, false, None;
        return false, calls;
      }
      queueCreated, slot := true, None;
      ok := true;
    }

    /** createBatteryTask (src/battery_tasks.cpp:198-222): only with a gauge and a queue. */
    method CreateTask(createOk: bool) returns (ok: bool)
      modifies this`pendingTasks
      ensures ok <==> gaugeCreated && queueCreated && createOk
      ensures pendingTasks == if ok then old(pendingTasks) + 1 else old(pendingTasks)
    {
      if !gaugeCreated || !queueCreated || !createOk {
        return false;
      }
      pendingTasks := pendingTasks + 1;
      return true;
    }

    /**
     * batteryTask (src/battery_tasks.cpp:49-140): one created task runs.
     * The status is sent (and dropped if the slot is still full) only for a
     * valid reading; an invalid one reports no alert and queues nothing.
     */
    method RunTask(voltage: U16, soc: U8, chrgHigh: bool, stdbyHigh: bool, switchHigh: bool,
                   firstAlert: bool, alertAfterClear: bool, alertAfterBegin: bool)
      returns (status: BatteryStatus, calls: seq<GaugeCall>)
      requires Valid() && pendingTasks > 0 && gaugeCreated && queueCreated
      modifies this`pendingTasks, this`slot
      ensures Valid()
      ensures pendingTasks == old(pendingTasks) - 1
      ensures status.success <==> ReadingValid(voltage, soc)
      ensures status.voltage == voltage && status.soc == soc
      ensures status.chrgStatus == ChargingStatusOf(chrgHigh, stdbyHigh)
      ensures status.switchState == SwitchState(switchHigh)
      ensures status.isAlert == FinalAlert(status.success, soc, firstAlert, alertAfterClear, alertAfterBegin)
      ensures calls == GaugeCalls(status.success, soc, firstAlert, alertAfterClear)
      ensures slot == if status.success && old(slot).None? then Some(status) else old(slot)
    {
      pendingTasks := pendingTasks - 1;
      calls := [ReadVoltage, ReadSoc];
      var chrg := ChargingStatusOf(chrgHigh, stdbyHigh);
      var switchState := !switchHigh;
      if voltage > 0 && soc != 255 {
        var isAlert := firstAlert;
        calls := calls + [IsAlertActive];
        if isAlert && soc > BATT_ALERT_THRESHOLD + 5 {
          calls := calls + [ClearAlert, IsAlertActive];
          isAlert := alertAfterClear;
          if isAlert {
            calls := calls + [Begin(BATT_ALERT_THRESHOLD), IsAlertActive];
            isAlert := alertAfterBegin;
          }
        }
        status := BatteryStatus(voltage, soc, isAlert, chrg, switchState, true);
        if slot.None? {
          slot := Some(status);
        }
      } else {
        status := BatteryStatus(voltage, soc, false, chrg, switchState, false);
      }
    }

    /** receiveBatteryResults (src/battery_tasks.cpp:224-242): takes the queued status if there is one. */
    method Receive() returns (ok: bool, result: Option<BatteryStatus>)
      requires Valid()
      modifies this`slot
      ensures Valid()
      ensures ok <==> queueCreated && old(slot).Some?
      ensures ok ==> result == old(slot) && slot == None
      ensures !ok ==> result == None && slot == old(slot)
    {
      if !queueCreated || slot.None? {
        return false, None;
      }
      result, slot := slot, None;
      ok := true;
    }
  }
}
