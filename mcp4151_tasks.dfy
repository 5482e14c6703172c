/**
 * The one-shot digipot task module (src/mcp4151_tasks.cpp): the driver
 * instance, a one-slot results queue, the cached `lastPosition`, and the
 * operation each created task runs. Tasks that have been created but not yet
 * run are kept in `pending`; the scheduler picks which one runs next.
 */
module Mcp4151Tasks {
  import opened Common
  import opened Mcp4151

  /** DigipotOp_t; `Other` stands for any value outside the four named ones. */
  datatype DigipotOp = SetOp | IncrementOp | DecrementOp | ReadOp | Other(code: int)

  /** DigipotResult_t, as queued: only successful results are sent. */
  datatype DigipotResult = DigipotResult(position: U8, success: bool)

  /** The parameters a created task runs with. */
  datatype Job = Job(operation: DigipotOp, position: U8)

  class DigipotModule {
    /** digipotInstance; null before a successful initialisation or after a failed one. */
    var pot: Pot?
    /** Whether digipotResultsQueue is a created queue. */
    var queueCreated: bool
    /** The queue's single slot. */
    var slot: Option<DigipotResult>
    var lastPosition: U8
    /** Tasks created and not yet run. */
    var pending: seq<Job>

    ghost predicate Valid()
      reads this, pot
    {
      && (pot != null ==> pot.Valid() && pot.initialized)
      && (!queueCreated ==> slot == None)
    }

    constructor ()
      ensures Valid() && pot == null && !queueCreated && lastPosition == 0 && pending == []
    {
      pot := null;
      queueCreated := false;
      slot := None;
      lastPosition := 0;
      pending := [];
    }

    /**
     * initDigipotModule (src/mcp4151_tasks.cpp:90-122): a new driver that
     * must begin, an initial read of the wiper into `lastPosition`, and a new
     * results queue. A failure drops the driver; a failed queue also leaves
     * the queue handle null.
     */
    method Init(mutexCreated: bool, beginAcquired: bool, beginAnswer: U8,
                readAcquired: bool, readAnswer: U8, queueOk: bool) returns (ok: bool)
      requires Valid()
      modifies this
      ensures Valid()
      ensures ok <==> mutexCreated && beginAcquired && beginAnswer != ERROR_POSITION && queueOk
      ensures ok ==> pot != null && queueCreated && slot == None
      ensures !ok ==> pot == null
      ensures mutexCreated && beginAcquired && beginAnswer != ERROR_POSITION ==>
                lastPosition == (if readAcquired then readAnswer else ERROR_POSITION) && queueCreated == queueOk
      ensures !(mutexCreated && beginAcquired && beginAnswer != ERROR_POSITION) ==>
                lastPosition == old(lastPosition) && queueCreated == old(queueCreated) && slot == old(slot)
      ensures pending == old(pending)
    {
      var p := new Pot(mutexCreated);
      var began := p.Begin(beginAcquired, beginAnswer);
      if !began {
        pot := null;
        return false;
      }
      lastPosition := p.GetWiper(readAcquired, readAnswer);
      if !queueOk {
        pot, queueCreated, slot := null, false, None;
        return false;
      }
      pot, queueCreated, slot := p, true, None;
      return true;
    }

    /**
     * createDigipotTask (src/mcp4151_tasks.cpp:124-159): refuses unless the
     * driver and the queue exist; otherwise a task is created iff the
     * scheduler accepts it.
     */
    method CreateTask(operation: DigipotOp, position: U8, createOk: bool) returns (ok: bool)
      modifies this`pending
      ensures ok <==> pot != null && queueCreated && createOk
      ensures pending == if ok then old(pending) + [Job(operation, position)] else old(pending)
    {
      if pot == null || !queueCreated {
        return false;
      }
      if !createOk {
        return false;
      }
      pending := pending + [Job(operation, position)];
      return true;
    }

    /**
     * digipotTask (src/mcp4151_tasks.cpp:22-88): the pending task `i` runs
     * its operation; a set is verified by reading back. `reported` is the
     * position of a successful result, which becomes `lastPosition` and is
     * sent to the queue (dropped if the slot is still full); a failure
     * changes neither. The driver's cache moves as its methods say.
     */
    method RunTask(i: nat, acquired: bool, answer: U8, readAcquired: bool, readAnswer: U8)
      returns (reported: Option<U8>)
      requires Valid() && i < |pending| && pot != null && queueCreated
      modifies this`pending, this`lastPosition, this`slot, pot`lastPosition
      ensures Valid()
      ensures pending == old(pending[..i] + pending[i + 1..])
      ensures reported == Reported(old(pending[i]), old(pot.lastPosition), acquired, answer, readAcquired, readAnswer)
      ensures pot.lastPosition == DriverCache(old(pending[i]), old(pot.lastPosition), acquired, answer, readAcquired, readAnswer)
      ensures lastPosition == if reported.Some? then reported.value else old(lastPosition)
      ensures slot == if reported.Some? && old(slot).None? then Some(DigipotResult(reported.value, true)) else old(slot)
    {
      var job := pending[i];
      pending := pending[..i] + pending[i + 1..];
      var position: U8 := 0;
      var success := false;
      match job.operation {
        case SetOp =>
          var sent;
          success, sent := pot.SetWiper(job.position, acquired);
        case IncrementOp =>
          var sent;
          position, sent := pot.IncrementWiper(acquired);
          success := position != ERROR_POSITION;
        case DecrementOp =>
          var sent;
          position, sent := pot.DecrementWiper(acquired);
          success := position != ERROR_POSITION;
        case ReadOp =>
          position := pot.GetWiper(acquired, answer);
          success := position != ERROR_POSITION;
        case Other(_) =>
      }
      if job.operation == SetOp && success {
        position := pot.GetWiper(readAcquired, readAnswer);
        success := position != ERROR_POSITION;
      }
      if success {
        lastPosition := position;
        if slot.None? {
          slot := Some(DigipotResult(position, true));
        }
        reported := Some(position);
      } else {
        reported := None;
      }
    }

    /**
     * receiveDigipotResults (src/mcp4151_tasks.cpp:161-180): takes the
     * queued result if there is one and copies its position into
     * `lastPosition`; fails with no queue or an empty slot.
     */
    method Receive() returns (ok: bool, result: Option<DigipotResult>)
      requires Valid()
      modifies this`slot, this`lastPosition
      ensures Valid()
      ensures ok <==> queueCreated && old(slot).Some?
      ensures ok ==> result == old(slot) && slot == None && lastPosition == old(slot).value.position
      ensures !ok ==> result == None && slot == old(slot) && lastPosition == old(lastPosition)
    {
      if !queueCreated || slot.None? {
        return false, None;
      }
      result := slot;
      lastPosition := slot.value.position;
      slot := None;
      ok := true;
    }

    /** getLastWiperPosition (src/mcp4151_tasks.cpp:182-184): the cached position, without touching the device. */
    method GetLastWiperPosition() returns (position: U8)
      ensures position == lastPosition
    {
      position := lastPosition;
    }
  }

  /**
   * The position a task reports, or None when it fails: the driver's
   * answer for increment, decrement and read when it is not the error code
   * 255, the read-back for a set whose write went through, nothing for an
   * unknown operation.
   */
  function Reported(job: Job, cache: U8, acquired: bool, answer: U8, readAcquired: bool, readAnswer: U8): Option<U8> {
    match job.operation
    case SetOp => if acquired && readAcquired && readAnswer != ERROR_POSITION then Some(readAnswer) else None
    case IncrementOp => if acquired && Up(cache) != ERROR_POSITION then Some(Up(cache)) else None
    case DecrementOp => if acquired then Some(Down(cache)) else None
    case ReadOp => if acquired && answer != ERROR_POSITION then Some(answer) else None
    case Other(_) => None
  }

  /** The driver's cached position after the task. */
  function DriverCache(job: Job, cache: U8, acquired: bool, answer: U8, readAcquired: bool, readAnswer: U8): U8 {
    match job.operation
    case SetOp =>
      if !acquired then cache
      else if readAcquired && readAnswer != ERROR_POSITION then readAnswer
      else job.position
    case IncrementOp => if acquired then Up(cache) else cache
    case DecrementOp => if acquired then Down(cache) else cache
    case ReadOp => if acquired && answer != ERROR_POSITION then answer else cache
    case Other(_) => cache
  }

  /**
   * What a task reports is what the driver then caches, and never the error
   * code; an increment that reaches 255 is reported as a failure although the
   * driver moved, and a decrement always succeeds once the mutex is taken.
   */
  lemma ReportedAgreesWithDriver(job: Job, cache: U8, acquired: bool, answer: U8, readAcquired: bool, readAnswer: U8)
    ensures var r := Reported(job, cache, acquired, answer, readAcquired, readAnswer);
            r.Some? ==> r.value != ERROR_POSITION && r.value == DriverCache(job, cache, acquired, answer, readAcquired, readAnswer)
    ensures job.operation == IncrementOp && acquired && cache >= 254 ==>
              Reported(job, cache, acquired, answer, readAcquired, readAnswer) == None &&
              DriverCache(job, cache, acquired, answer, readAcquired, readAnswer) == 255
    ensures job.operation == DecrementOp ==>
              (Reported(job, cache, acquired, answer, readAcquired, readAnswer).Some? <==> acquired)
  {
  }
}
