/**
 * The TCA9534A GPIO-expander front end (src/gpio_expander_tasks.cpp):
 * turning a change of the input byte into button and battery-alert events,
 * the bounded event queue they go into, and the output byte with its
 * electronics-shutdown bit. Bus transfers are parameters: whether the read
 * or write succeeds and which byte the read returns.
 */
module GpioExpander {
  import opened Common

  /** The mask of input pin `i` (`1 << i`). */
  function Bit(i: nat): (b: bv8)
    requires i < 8
  {
    1 << i
  }

  /** Bits 0-3 are buttons, bit 4 the battery alert: the only inputs that produce events. */
  const MONITORED_INPUTS: nat := 5
  /** GPIO_EXPANDER_INPUTS_MASK. */
  const INPUTS_MASK: bv8 := 0x1F
  /** GPIO_EXPANDER_ELEC_SHDN, the only output pin; also GPIO_EXPANDER_OUTPUTS_MASK. */
  const ELEC_SHDN: bv8 := 0x20
  const OUTPUTS_MASK: bv8 := 0x20
  /** The length the button event queue is created with. */
  const EVENT_QUEUE_CAPACITY: nat := 10

  datatype EventType = ButtonPressed | ButtonReleased | BatteryAlertActive | BatteryAlertInactive

  datatype Event = Event(eventType: EventType, buttonMask: bv8, timestamp: U32)

  datatype Status = Status(inputState: bv8, outputState: bv8, success: bool)

  /** The indices `i` in `from..MONITORED_INPUTS-1` whose bit is set in `changed`, ascending. */
  function ChangedBitsFrom(changed: bv8, from: nat): seq<nat>
    decreases MONITORED_INPUTS - from
  {
    if from >= MONITORED_INPUTS then []
    else (if changed & Bit(from) != 0 then [from] else []) + ChangedBitsFrom(changed, from + 1)
  }

  /** The event for a change of pin `i`: the inputs are active low, so a 0 bit means pressed or alert active. */
  function EventFor(i: nat, inputState: bv8, nowMs: U32): Event
    requires i < MONITORED_INPUTS
  {
    var low := inputState & Bit(i) == 0;
    var kind :=
      if i < 4 then (if low then ButtonPressed else ButtonReleased)
      else (if low then BatteryAlertActive else BatteryAlertInactive);
    Event(kind, Bit(i), nowMs)
  }

  /** The events for the changed pins from `from` on, in the order the loop sends them. */
  function ChangeEventsFrom(changed: bv8, inputState: bv8, nowMs: U32, from: nat): seq<Event>
    decreases MONITORED_INPUTS - from
  {
    if from >= MONITORED_INPUTS then []
    else (if changed & Bit(from) != 0 then [EventFor(from, inputState, nowMs)] else [])
         + ChangeEventsFrom(changed, inputState, nowMs, from + 1)
  }

  /** The events one poll generates when the input byte goes from `last` to `input`. */
  function ChangeEvents(input: bv8, last: bv8, nowMs: U32): seq<Event> {
    ChangeEventsFrom(input ^ last, input, nowMs, 0)
  }

  /** A non-blocking send: a full queue drops the new event and keeps the old ones. */
  function Enqueue(q: seq<Event>, e: Event): seq<Event> {
    if |q| < EVENT_QUEUE_CAPACITY then q + [e] else q
  }

  /** Sending `es` one after another. */
  function EnqueueAll(q: seq<Event>, es: seq<Event>): seq<Event>
    decreases |es|
  {
    if es == [] then q else EnqueueAll(Enqueue(q, es[0]), es[1..])
  }

  /**
   * The queue accepts events while it has room and drops the rest: the
   * events already queued stay, in order, followed by as many of the new
   * ones, in order, as fit.
   */
  lemma {:induction false} EnqueueAllKeepsOldest(q: seq<Event>, es: seq<Event>)
    requires |q| <= EVENT_QUEUE_CAPACITY
    ensures EnqueueAll(q, es) == q + es[..Min(|es|, EVENT_QUEUE_CAPACITY - |q|)]
    decreases |es|
  {
    if es != [] {
      var q1 := Enqueue(q, es[0]);
      EnqueueAllKeepsOldest(q1, es[1..]);
      if |q| < EVENT_QUEUE_CAPACITY {
        assert q1 + es[1..][..Min(|es| - 1, EVENT_QUEUE_CAPACITY - |q1|)]
            == q + es[..Min(|es|, EVENT_QUEUE_CAPACITY - |q|)];
      } else {
        assert es[..Min(|es|, EVENT_QUEUE_CAPACITY - |q|)] == [];
        assert es[1..][..Min(|es| - 1, EVENT_QUEUE_CAPACITY - |q1|)] == [];
      }
    }
  }

  /** Each element of ChangeEventsFrom is the event of the matching element of ChangedBitsFrom. */
  lemma {:induction false} EventsFollowBits(changed: bv8, inputState: bv8, nowMs: U32, from: nat)
    ensures |ChangeEventsFrom(changed, inputState, nowMs, from)| == |ChangedBitsFrom(changed, from)|
    ensures forall k :: 0 <= k < |ChangedBitsFrom(changed, from)| ==>
              ChangedBitsFrom(changed, from)[k] < MONITORED_INPUTS &&
              ChangeEventsFrom(changed, inputState, nowMs, from)[k] == EventFor(ChangedBitsFrom(changed, from)[k], inputState, nowMs)
    decreases MONITORED_INPUTS - from
  {
    if from < MONITORED_INPUTS {
      EventsFollowBits(changed, inputState, nowMs, from + 1);
      var bits := ChangedBitsFrom(changed, from + 1);
      var evs := ChangeEventsFrom(changed, inputState, nowMs, from + 1);
      if changed & Bit(from) != 0 {
        var bits' := [from] + bits;
        var evs' := [EventFor(from, inputState, nowMs)] + evs;
        assert ChangedBitsFrom(changed, from) == bits';
        assert ChangeEventsFrom(changed, inputState, nowMs, from) == evs';
        forall k | 0 <= k < |bits'|
          ensures bits'[k] < MONITORED_INPUTS && evs'[k] == EventFor(bits'[k], inputState, nowMs)
        {
          if k > 0 {
            assert bits'[k] == bits[k - 1] && evs'[k] == evs[k - 1];
          }
        }
      } else {
        assert ChangedBitsFrom(changed, from) == bits;
        assert ChangeEventsFrom(changed, inputState, nowMs, from) == evs;
      }
    }
  }

  /**
   * The changed bits are exactly the monitored pins at or after `from`
   * whose bit is set, listed in strictly ascending order.
   */
  lemma ChangedBitsExact(changed: bv8, from: nat)
    ensures forall j :: j in ChangedBitsFrom(changed, from) ==> from <= j < MONITORED_INPUTS && changed & Bit(j) != 0
    ensures forall j :: from <= j < MONITORED_INPUTS && changed & Bit(j) != 0 ==> j in ChangedBitsFrom(changed, from)
    ensures forall a, b :: 0 <= a < b < |ChangedBitsFrom(changed, from)| ==>
              ChangedBitsFrom(changed, from)[a] < ChangedBitsFrom(changed, from)[b]
  {
    ChangedBitsSound(changed, from);
    ChangedBitsComplete(changed, from);
    ChangedBitsAscending(changed, from);
  }

  lemma {:induction false} ChangedBitsSound(changed: bv8, from: nat)
    ensures forall j :: j in ChangedBitsFrom(changed, from) ==> from <= j < MONITORED_INPUTS && changed & Bit(j) != 0
    decreases MONITORED_INPUTS - from
  {
    if from < MONITORED_INPUTS {
      ChangedBitsSound(changed, from + 1);
    }
  }

  lemma {:induction false} ChangedBitsComplete(changed: bv8, from: nat)
    ensures forall j :: from <= j < MONITORED_INPUTS && changed & Bit(j) != 0 ==> j in ChangedBitsFrom(changed, from)
    decreases MONITORED_INPUTS - from
  {
    if from < MONITORED_INPUTS {
      ChangedBitsComplete(changed, from + 1);
    }
  }

  /** Every listed index is at least `from`. */
  lemma {:induction false} ChangedBitsAbove(changed: bv8, from: nat)
    ensures forall k :: 0 <= k < |ChangedBitsFrom(changed, from)| ==> from <= ChangedBitsFrom(changed, from)[k]
    decreases MONITORED_INPUTS - from
  {
    if from < MONITORED_INPUTS {
      ChangedBitsAbove(changed, from + 1);
      var rest := ChangedBitsFrom(changed, from + 1);
      if changed & Bit(from) != 0 {
        assert ChangedBitsFrom(changed, from) == [from] + rest;
      } else {
        assert ChangedBitsFrom(changed, from) == rest;
      }
    }
  }

  lemma {:induction false} ChangedBitsAscending(changed: bv8, from: nat)
    ensures forall a, b :: 0 <= a < b < |ChangedBitsFrom(changed, from)| ==>
              ChangedBitsFrom(changed, from)[a] < ChangedBitsFrom(changed, from)[b]
    decreases MONITORED_INPUTS - from
  {
    if from < MONITORED_INPUTS {
      ChangedBitsAscending(changed, from + 1);
      ChangedBitsAbove(changed, from + 1);
      var rest := ChangedBitsFrom(changed, from + 1);
      if changed & Bit(from) != 0 {
        var r := ChangedBitsFrom(changed, from);
        assert r == [from] + rest;
        forall a, b | 0 <= a < b < |r|
          ensures r[a] < r[b]
        {
          assert r[b] == rest[b - 1];
          if a > 0 {
            assert r[a] == rest[a - 1];
          }
        }
      } else {
        assert ChangedBitsFrom(changed, from) == rest;
      }
    }
  }

  /** A change confined to bits 5-7 generates no events, and any change in bits 0-4 generates one. */
  lemma NoEventsIffHighBits(input: bv8, last: bv8, nowMs: U32)
    ensures ChangeEvents(input, last, nowMs) == [] <==> (input ^ last) & INPUTS_MASK == 0
  {
    var c := input ^ last;
    EventsFollowBits(c, input, nowMs, 0);
    ChangedBitsExact(c, 0);
    if c & INPUTS_MASK == 0 {
      forall j | 0 <= j < MONITORED_INPUTS
        ensures c & Bit(j) == 0
      {
        MaskedBit(c, j);
      }
      NoBitsNoEvents(c, 0);
    } else {
      var j := LowSetBit(c);
      assert j in ChangedBitsFrom(c, 0);
    }
  }

  lemma {:induction false} NoBitsNoEvents(c: bv8, from: nat)
    requires forall j :: from <= j < MONITORED_INPUTS ==> c & Bit(j) == 0
    ensures ChangedBitsFrom(c, from) == []
    decreases MONITORED_INPUTS - from
  {
    if from < MONITORED_INPUTS {
      NoBitsNoEvents(c, from + 1);
    }
  }

  lemma MaskedBit(c: bv8, j: nat)
    requires j < MONITORED_INPUTS && c & INPUTS_MASK == 0
    ensures c & Bit(j) == 0
  {
    if j == 0 { assert Bit(j) == 1; }
    else if j == 1 { assert Bit(j) == 2; }
    else if j == 2 { assert Bit(j) == 4; }
    else if j == 3 { assert Bit(j) == 8; }
    else { assert Bit(j) == 16; }
  }

  lemma LowSetBit(c: bv8) returns (j: nat)
    requires c & INPUTS_MASK != 0
    ensures j < MONITORED_INPUTS && c & Bit(j) != 0
  {
    if c & 1 != 0 { j := 0; }
    else if c & 2 != 0 { j := 1; }
    else if c & 4 != 0 { j := 2; }
    else if c & 8 != 0 { j := 3; }
    else { j := 4; }
  }

  /** The output byte after asking for `pin` to be set (`state`) or cleared: the pin's bits follow `state`, the rest stay. */
  function OutputWith(current: bv8, pin: bv8, state: bool): (r: bv8)
    ensures state ==> r & pin == pin
    ensures !state ==> r & pin == 0
    ensures r & !pin == current & !pin
  {
    if state then current | pin else current & !pin
  }

  /** The queue after the loop's step for pin `i`: its event is sent iff its bit changed. */
  function SendOne(q: seq<Event>, changed: bv8, inputState: bv8, nowMs: U32, i: nat): seq<Event>
    requires i < MONITORED_INPUTS
  {
    if changed & Bit(i) != 0 then Enqueue(q, EventFor(i, inputState, nowMs)) else q
  }

  /** One step of sending the events: the step for pin `i`, then the rest. */
  lemma SendStep(q: seq<Event>, changed: bv8, inputState: bv8, nowMs: U32, i: nat)
    requires i < MONITORED_INPUTS
    ensures EnqueueAll(q, ChangeEventsFrom(changed, inputState, nowMs, i))
            == EnqueueAll(SendOne(q, changed, inputState, nowMs, i), ChangeEventsFrom(changed, inputState, nowMs, i + 1))
  {
    var rest := ChangeEventsFrom(changed, inputState, nowMs, i + 1);
    if changed & Bit(i) != 0 {
      var ev := EventFor(i, inputState, nowMs);
      assert ChangeEventsFrom(changed, inputState, nowMs, i) == [ev] + rest;
      assert ([ev] + rest)[1..] == rest;
    } else {
      assert ChangeEventsFrom(changed, inputState, nowMs, i) == rest;
    }
  }

  /** An unchanged input byte sends nothing. */
  lemma {:induction false} NoChangeNoEvents(inputState: bv8, nowMs: U32, from: nat)
    ensures ChangeEventsFrom(0, inputState, nowMs, from) == []
    decreases MONITORED_INPUTS - from
  {
    if from < MONITORED_INPUTS {
      NoChangeNoEvents(inputState, nowMs, from + 1);
      assert 0 & Bit(from) == 0;
    }
  }

  /**
   * The send loop of one poll (src/gpio_expander_tasks.cpp:135-166): for
   * each monitored pin in turn whose bit changed, its event goes to the
   * queue `q`.
   */
  method EnqueueChanges(q: seq<Event>, changed: bv8, inputState: bv8, nowMs: U32) returns (r: seq<Event>)
    requires |q| <= EVENT_QUEUE_CAPACITY
    ensures |r| <= EVENT_QUEUE_CAPACITY
    ensures r == EnqueueAll(q, ChangeEventsFrom(changed, inputState, nowMs, 0))
  {
    r := q;
    var i := 0;
    while i < MONITORED_INPUTS
      invariant 0 <= i <= MONITORED_INPUTS
      invariant |r| <= EVENT_QUEUE_CAPACITY
      invariant EnqueueAll(r, ChangeEventsFrom(changed, inputState, nowMs, i))
             == EnqueueAll(q, ChangeEventsFrom(changed, inputState, nowMs, 0))
    {
      SendStep(r, changed, inputState, nowMs, i);
      ghost var before := r;
      var mask := Bit(i);
      if changed & mask != 0 {
        r := Enqueue(r, EventFor(i, inputState, nowMs));
      }
      assert r == SendOne(before, changed, inputState, nowMs, i);
      i := i + 1;
    }
  }

  class Expander {
    var lastInputState: bv8
    var currentOutputState: bv8
    /** The status queue (one slot, overwritten). */
    var status: Option<Status>
    /** The button event queue, oldest first. */
    var events: seq<Event>

    ghost predicate Valid()
      reads this
    {
      |events| <= EVENT_QUEUE_CAPACITY
    }

    constructor ()
      ensures Valid() && lastInputState == 0 && currentOutputState == 0
      ensures status == None && events == []
    {
      lastInputState, currentOutputState := 0, 0;
      status, events := None, [];
    }

    /**
     * One poll of the task loop (src/gpio_expander_tasks.cpp:118-175):
     * `readOk` is whether the input register read succeeds and `input` the
     * byte it returns. A successful read queues one event per changed
     * monitored pin and leaves the new input as the reference.
     */
    method Poll(readOk: bool, input: bv8, nowMs: U32)
      requires Valid()
      modifies this`lastInputState, this`status, this`events
      ensures Valid()
      ensures !readOk ==> lastInputState == old(lastInputState) && status == old(status) && events == old(events)
      ensures readOk ==> lastInputState == input && status == Some(Status(input, currentOutputState, true))
      ensures readOk ==> events == EnqueueAll(old(events), ChangeEvents(input, old(lastInputState), nowMs))
    {
      if !readOk {
        return;
      }
      var st := Status(input, currentOutputState, true);
      var changed := input ^ lastInputState;
      if changed != 0 {
        events := EnqueueChanges(events, changed, input, nowMs);
        lastInputState := input;
      } else {
        NoChangeNoEvents(input, nowMs, 0);
      }
      status := Some(st);
    }

    /**
     * waitForButtonEvent (src/gpio_expander_tasks.cpp:283-300): takes the
     * oldest event, if any, and reports whether it matches `buttonMask` (0
     * matches anything). A non-matching event is consumed all the same.
     */
    method WaitForButtonEvent(buttonMask: bv8) returns (ok: bool, received: Option<Event>)
      requires Valid()
      modifies this`events
      ensures Valid()
      ensures old(events) == [] ==> !ok && received == None && events == []
      ensures old(events) != [] ==> received == Some(old(events)[0]) && events == old(events)[1..]
      ensures ok <==> received.Some? && (buttonMask == 0 || received.value.buttonMask & buttonMask != 0)
    {
      if events == [] {
        return false, None;
      }
      var e := events[0];
      events := events[1..];
      received := Some(e);
      if buttonMask == 0 {
        return true, received;
      }
      ok := e.buttonMask & buttonMask != 0;
    }

    /**
     * setGpioExpanderOutput (src/gpio_expander_tasks.cpp:302-331): `writeOk`
     * is whether the output register write succeeds; `written` is the byte
     * sent, if a write was attempted.
     */
    method SetOutput(pin: bv8, state: bool, writeOk: bool) returns (ok: bool, written: Option<bv8>)
      modifies this`currentOutputState
      ensures pin & OUTPUTS_MASK == 0 ==> !ok && written == None && currentOutputState == old(currentOutputState)
      ensures pin & OUTPUTS_MASK != 0 && OutputWith(old(currentOutputState), pin, state) == old(currentOutputState) ==>
                ok && written == None && currentOutputState == old(currentOutputState)
      ensures pin & OUTPUTS_MASK != 0 && OutputWith(old(currentOutputState), pin, state) != old(currentOutputState) ==>
                && written == Some(OutputWith(old(currentOutputState), pin, state))
                && ok == writeOk
                && currentOutputState == if writeOk then OutputWith(old(currentOutputState), pin, state) else old(currentOutputState)
    {
      if pin & OUTPUTS_MASK == 0 {
        return false, None;
      }
      var newState := OutputWith(currentOutputState, pin, state);
      if newState != currentOutputState {
        written := Some(newState);
        if writeOk {
          currentOutputState := newState;
          return true, written;
        }
        return false, written;
      }
      return true, None;
    }

    /**
     * getElecShutdownState (src/gpio_expander_tasks.cpp:333-335): the
     * recorded shutdown bit, which is exactly the state that asking
     * setGpioExpanderOutput for again would leave unwritten.
     */
    function ElecShutdownState(): (r: bool)
      reads this
      ensures r <==> OutputWith(currentOutputState, ELEC_SHDN, true) == currentOutputState
      ensures !r <==> OutputWith(currentOutputState, ELEC_SHDN, false) == currentOutputState
    {
      currentOutputState & ELEC_SHDN != 0
    }

    /**
     * setElecShutdown (src/gpio_expander_tasks.cpp:337-339): it succeeds iff
     * the write succeeds or no write is needed; on success the shutdown
     * state reads back as requested and the other outputs are kept, and on
     * failure nothing changes. `written` is the output byte sent, which is
     * attempted exactly when the shutdown state has to change.
     */
    method SetElecShutdown(shutdown: bool, writeOk: bool) returns (ok: bool, written: Option<bv8>)
      modifies this`currentOutputState
      ensures ok <==> writeOk || old(ElecShutdownState()) == shutdown
      ensures ok ==> ElecShutdownState() == shutdown
      ensures !ok ==> currentOutputState == old(currentOutputState)
      ensures currentOutputState & !ELEC_SHDN == old(currentOutputState) & !ELEC_SHDN
      ensures written.Some? <==> old(ElecShutdownState()) != shutdown
      ensures written.Some? ==> written.value == OutputWith(old(currentOutputState), ELEC_SHDN, shutdown)
    {
      ok, written := SetOutput(ELEC_SHDN, shutdown, writeOk);
    }
  }
}
