/**
 * The MCP4151 digital-potentiometer driver (lib/MCP4151/src/MCP4151.cpp):
 * an initialisation guard, a cached wiper position and the SPI command
 * bytes. The SPI mutex is a parameter (`acquired`: taken within the 50 ms
 * timeout) and so is the byte the chip answers a read with; each method
 * returns the bytes it clocked out.
 */
module Mcp4151 {
  import opened Common

  const CMD_WRITE: bv8 := 0x00
  const CMD_READ: bv8 := 0x0C
  const REG_WIPER: bv8 := 0x00
  const CMD_INCREMENT: bv8 := 0x04
  const CMD_DECREMENT: bv8 := 0x08
  /** The value every read-like operation returns on failure. */
  const ERROR_POSITION: U8 := 255

  /** The command byte: the command ORed with the register number's low nibble. */
  function CommandByte(cmd: bv8, reg: bv8): (b: bv8)
    ensures b & 0xF0 == cmd & 0xF0
    ensures b & 0x0F == (cmd & 0x0F) | (reg & 0x0F)
  {
    cmd | (reg & 0x0F)
  }

  /** The wiper is written with command byte 0x00 and read with 0x0C. */
  lemma WiperCommands()
    ensures CommandByte(CMD_WRITE, REG_WIPER) == 0x00
    ensures CommandByte(CMD_READ, REG_WIPER) == 0x0C
    ensures forall reg: bv8 :: reg < 0x10 ==> CommandByte(CMD_WRITE, reg) == reg
  {
  }

  /** The cache after an increment: one step up, saturating at 255. */
  function Up(p: U8): (r: U8)
    ensures p < 255 ==> r == p + 1
    ensures p == 255 ==> r == 255
  {
    if p < 255 then p + 1 else p
  }

  /** The cache after a decrement: one step down, saturating at 0. */
  function Down(p: U8): (r: U8)
    ensures p > 0 ==> r == p - 1
    ensures p == 0 ==> r == 0
  {
    if p > 0 then p - 1 else p
  }

  /** The cache after `n` successful increments. */
  function Ups(p: U8, n: nat): U8
    decreases n
  {
    if n == 0 then p else Ups(Up(p), n - 1)
  }

  /** The cache after `n` successful decrements. */
  function Downs(p: U8, n: nat): U8
    decreases n
  {
    if n == 0 then p else Downs(Down(p), n - 1)
  }

  /** Repeated increments climb one step each and stop at 255. */
  lemma {:induction false} UpsSaturate(p: U8, n: nat)
    ensures Ups(p, n) == Min(p + n, 255)
    decreases n
  {
    if n > 0 {
      UpsSaturate(Up(p), n - 1);
    }
  }

  /** Repeated decrements descend one step each and stop at 0. */
  lemma {:induction false} DownsSaturate(p: U8, n: nat)
    ensures Downs(p, n) == if p >= n then p - n else 0
    decreases n
  {
    if n > 0 {
      DownsSaturate(Down(p), n - 1);
    }
  }

  /** A decrement undoes an increment away from the top, and an increment a decrement away from the bottom. */
  lemma UpDown(p: U8)
    ensures p < 255 ==> Down(Up(p)) == p
    ensures p > 0 ==> Up(Down(p)) == p
  {
  }

  class Pot {
    /** Whether the constructor's mutex allocation succeeded. */
    const hasMutex: bool
    var initialized: bool
    /** The cached wiper position. */
    var lastPosition: U8

    ghost predicate Valid()
      reads this
    {
      initialized ==> hasMutex
    }

    /** The constructor: allocates the SPI mutex; uninitialised with a cached position of 0. */
    constructor (mutexCreated: bool)
      ensures Valid() && hasMutex == mutexCreated && !initialized && lastPosition == 0
    {
      hasMutex := mutexCreated;
      initialized := false;
      lastPosition := 0;
    }

    /** readRegister (lib/MCP4151/src/MCP4151.cpp:165-197): the chip's answer, or 255 without the mutex. */
    method ReadRegister(reg: bv8, acquired: bool, answer: U8) returns (value: U8, sent: seq<bv8>)
      ensures hasMutex && acquired ==> value == answer && sent == [CommandByte(CMD_READ, reg), 0]
      ensures !(hasMutex && acquired) ==> value == ERROR_POSITION && sent == []
    {
      if !hasMutex {
        return ERROR_POSITION, [];
      }
      value := ERROR_POSITION;
      sent := [];
      if acquired {
        var cmd := CMD_READ | (reg & 0x0F);
        sent := [cmd, 0];
        value := answer;
      }
    }

    /** writeRegister (lib/MCP4151/src/MCP4151.cpp:129-163): succeeds iff the mutex is taken. */
    method WriteRegister(reg: bv8, value: U8, acquired: bool) returns (ok: bool, sent: seq<bv8>)
      ensures ok <==> hasMutex && acquired
      ensures sent == if ok then [CommandByte(CMD_WRITE, reg), value as bv8] else []
    {
      if !hasMutex {
        return false, [];
      }
      ok := false;
      sent := [];
      if acquired {
        var cmd := CMD_WRITE | (reg & 0x0F);
        sent := [cmd, value as bv8];
        ok := true;
      }
    }

    /**
     * begin as the driver writes it (lib/MCP4151/src/MCP4151.cpp:9-31): the
     * probe goes through getWiper, which answers 255 while the driver is
     * uninitialised, so a first call can never succeed.
     */
    method BeginAsWritten(acquired: bool, answer: U8) returns (ok: bool)
      requires Valid()
      modifies this`initialized, this`lastPosition
      ensures Valid()
      ensures !old(initialized) ==> !ok && !initialized && lastPosition == old(lastPosition)
      ensures old(initialized) ==>
                (ok <==> acquired && answer != ERROR_POSITION) && initialized &&
                lastPosition == if ok then answer else old(lastPosition)
    {
      if !hasMutex {
        return false;
      }
      var position := GetWiper(acquired, answer);
      if position != ERROR_POSITION {
        lastPosition := position;
        initialized := true;
        return true;
      }
      return false;
    }

    /**
     * begin with the probe it evidently intends: read the wiper register
     * directly and become initialised when the answer is not the error code.
     */
    method Begin(acquired: bool, answer: U8) returns (ok: bool)
      requires Valid()
      modifies this`initialized, this`lastPosition
      ensures Valid()
      ensures ok <==> hasMutex && acquired && answer != ERROR_POSITION
      ensures initialized == (old(initialized) || ok)
      ensures lastPosition == if ok then answer else old(lastPosition)
    {
      if !hasMutex {
        return false;
      }
      var position, sent := ReadRegister(REG_WIPER, acquired, answer);
      if position != ERROR_POSITION {
        lastPosition := position;
        initialized := true;
        return true;
      }
      return false;
    }

    /** setWiper (lib/MCP4151/src/MCP4151.cpp:33-44): the cache follows only a successful write. */
    method SetWiper(position: U8, acquired: bool) returns (ok: bool, sent: seq<bv8>)
      requires Valid()
      modifies this`lastPosition
      ensures ok <==> initialized && acquired
      ensures lastPosition == if ok then position else old(lastPosition)
      ensures sent == if ok then [CMD_WRITE, position as bv8] else []
    {
      if !initialized {
        return false, [];
      }
      ok, sent := WriteRegister(REG_WIPER, position, acquired);
      if ok {
        lastPosition := position;
      }
    }

    /** getWiper (lib/MCP4151/src/MCP4151.cpp:46-57): the position read, 255 on any failure; the cache follows a non-error read. */
    method GetWiper(acquired: bool, answer: U8) returns (position: U8)
      requires Valid()
      modifies this`lastPosition
      ensures position == if initialized && acquired then answer else ERROR_POSITION
      ensures lastPosition == if position != ERROR_POSITION then position else old(lastPosition)
    {
      if !initialized {
        return ERROR_POSITION;
      }
      var sent;
      position, sent := ReadRegister(REG_WIPER, acquired, answer);
      if position != ERROR_POSITION {
        lastPosition := position;
      }
    }

    /** incrementWiper (lib/MCP4151/src/MCP4151.cpp:59-92): sends 0x04 and moves the cache up, saturating. */
    method IncrementWiper(acquired: bool) returns (position: U8, sent: seq<bv8>)
      requires Valid()
      modifies this`lastPosition
      ensures initialized && acquired ==>
                lastPosition == Up(old(lastPosition)) && position == lastPosition && sent == [CMD_INCREMENT]
      ensures !(initialized && acquired) ==>
                lastPosition == old(lastPosition) && position == ERROR_POSITION && sent == []
    {
      if !initialized || !acquired {
        return ERROR_POSITION, [];
      }
      sent := [CMD_INCREMENT];
      if lastPosition < 255 {
        lastPosition := lastPosition + 1;
      }
      position := lastPosition;
    }

    /** decrementWiper (lib/MCP4151/src/MCP4151.cpp:94-127): sends 0x08 and moves the cache down, saturating. */
    method DecrementWiper(acquired: bool) returns (position: U8, sent: seq<bv8>)
      requires Valid()
      modifies this`lastPosition
      ensures initialized && acquired ==>
                lastPosition == Down(old(lastPosition)) && position == lastPosition && sent == [CMD_DECREMENT]
      ensures !(initialized && acquired) ==>
                lastPosition == old(lastPosition) && position == ERROR_POSITION && sent == []
    {
      if !initialized || !acquired {
        return ERROR_POSITION, [];
      }
      sent := [CMD_DECREMENT];
      if lastPosition > 0 {
        lastPosition := lastPosition - 1;
      }
      position := lastPosition;
    }
  }

  /**
   * Constructed and then begun as written, the driver stays uninitialised
   * whatever the bus does, and every later operation fails.
   */
  method BeginNeverSucceeds(mutexCreated: bool, acquired: bool, answer: U8)
    returns (ok: bool, wiper: U8, written: bool)
    ensures !ok && wiper == ERROR_POSITION && !written
  {
    var pot := new Pot(mutexCreated);
    ok := pot.BeginAsWritten(acquired, answer);
    wiper := pot.GetWiper(acquired, answer);
    var sent;
    written, sent := pot.SetWiper(answer, acquired);
  }
}
