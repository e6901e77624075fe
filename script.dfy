/**
 * The cursor of an observation script (Rts2Script): a list of script elements walked by
 * nextCommand, which asks the element under the cursor for its next command, announces
 * that element's position in the script text to the device, and decides from the
 * element's return code whether the cursor stays, moves on, or the script has ended.
 * Return codes are 32-bit two's-complement ints, so they are modelled as bv32.
 */
module Script {
  import opened Wrappers

  const NEXT_COMMAND_NEXT: bv32 := 0xFFFF_FFFE              // -2
  const NEXT_COMMAND_END_SCRIPT: bv32 := 0xFFFF_FFFF        // -1
  const NEXT_COMMAND_KEEP: bv32 := 1
  const NEXT_COMMAND_WAITING: bv32 := 2
  const NEXT_COMMAND_RESYNC: bv32 := 3
  const NEXT_COMMAND_CHECK_WAIT: bv32 := 4
  const NEXT_COMMAND_PRECISION_FAILED: bv32 := 5
  const NEXT_COMMAND_PRECISION_OK: bv32 := 6
  const NEXT_COMMAND_WAIT_ACQUSITION: bv32 := 7
  const NEXT_COMMAND_ACQUSITION_IMAGE: bv32 := 8
  const NEXT_COMMAND_WAIT_SIGNAL: bv32 := 9
  const NEXT_COMMAND_WAIT_MIRROR: bv32 := 10
  const NEXT_COMMAND_WAIT_SEARCH: bv32 := 11
  /** Set in a code when the command handed out by the element is to be kept as the block gave it. */
  const NEXT_COMMAND_MASK_BLOCK: bv32 := 0x10_0000

  /** The value of a 32-bit code read as a signed C int. */
  function Signed(code: bv32): int {
    if code < 0x8000_0000 then code as int else code as int - 0x1_0000_0000
  }

  /** The code with the block flag cleared. */
  function StripBlock(code: bv32): (r: bv32)
    ensures r & NEXT_COMMAND_MASK_BLOCK == 0
    ensures r | (code & NEXT_COMMAND_MASK_BLOCK) == code
  {
    code & !NEXT_COMMAND_MASK_BLOCK
  }

  /**
   * The two negative codes carry the block flag, so an element that ends the script
   * does not end it: the flag is stripped, the cursor stays, and the caller receives
   * -1048577 instead of -1 (and -1048578 instead of -2).
   */
  lemma NegativeCodesCarryBlockFlag()
    ensures NEXT_COMMAND_END_SCRIPT & NEXT_COMMAND_MASK_BLOCK != 0
    ensures NEXT_COMMAND_NEXT & NEXT_COMMAND_MASK_BLOCK != 0
    ensures Signed(StripBlock(NEXT_COMMAND_END_SCRIPT)) == -1048577
    ensures Signed(StripBlock(NEXT_COMMAND_NEXT)) == -1048578
  {
  }

  /** Every code from -2^20 to -1 carries the block flag. */
  lemma SmallNegativeCodesCarryBlockFlag(code: bv32)
    requires code >= 0xFFF0_0000
    ensures code & NEXT_COMMAND_MASK_BLOCK != 0
  {
  }

  /** Stripping the flag never yields NEXT, so a call that leaves the loop always counts. */
  lemma StrippedCodeIsNeverNext(code: bv32)
    ensures StripBlock(code) != NEXT_COMMAND_NEXT
  {
  }

  /** The codes after which the element is done and the cursor moves on. */
  predicate Advances(code: bv32) {
    code == 0 || code == NEXT_COMMAND_CHECK_WAIT || code == NEXT_COMMAND_PRECISION_FAILED ||
    code == NEXT_COMMAND_PRECISION_OK || code == NEXT_COMMAND_WAIT_ACQUSITION
  }

  /** An element's span in the script text. */
  datatype Element = Element(startPos: int, len: int)

  /** An opaque handle to the command an element hands out through *new_command. */
  type CommandRef = nat

  /** What the element's nextCommand does to *new_command: leaves it, or stores a command or NULL. */
  datatype CommandWrite = Untouched | Stores(command: Option<CommandRef>)

  /** What an element answers when asked for its next command during one call. */
  datatype ElementReply = ElementReply(code: bv32, write: CommandWrite)

  /** A queued Rts2CommandChangeValue(device, name, '=', value). */
  datatype ChangeValue = ChangeValue(name: string, value: int)

  /** The device the script runs on, reduced to its command queue. */
  class Device {
    var queue: seq<ChangeValue>

    constructor ()
      ensures queue == []
    {
      queue := [];
    }
  }

  /** The position of the first element at or after from whose code is not NEXT. */
  function FirstStop(replies: seq<ElementReply>, from: nat): (k: nat)
    requires from <= |replies|
    ensures from <= k <= |replies|
    ensures forall m :: from <= m < k ==> replies[m].code == NEXT_COMMAND_NEXT
    ensures k < |replies| ==> replies[k].code != NEXT_COMMAND_NEXT
    decreases |replies| - from
  {
    if from == |replies| || replies[from].code != NEXT_COMMAND_NEXT then from
    else FirstStop(replies, from + 1)
  }

  /** *new_command after the elements lo..hi-1 have been asked in turn, starting from NULL. */
  function CommandAfter(replies: seq<ElementReply>, lo: nat, hi: nat): Option<CommandRef>
    requires lo <= hi <= |replies|
    decreases hi
  {
    if hi == lo then None
    else match replies[hi - 1].write
      case Untouched => CommandAfter(replies, lo, hi - 1)
      case Stores(c) => c
  }

  /**
   * The command handed out is the one stored by the last element that wrote *new_command
   * (a command or NULL); when no element wrote it, it is NULL.
   */
  lemma {:induction false} CommandAfterIsLastWrite(replies: seq<ElementReply>, lo: nat, hi: nat)
    requires lo <= hi <= |replies|
    ensures
      ((forall m :: lo <= m < hi ==> replies[m].write == Untouched) && CommandAfter(replies, lo, hi) == None) ||
      (exists m :: lo <= m < hi && replies[m].write == Stores(CommandAfter(replies, lo, hi)) &&
        forall n :: m < n < hi ==> replies[n].write == Untouched)
    decreases hi
  {
    if hi > lo && replies[hi - 1].write == Untouched {
      CommandAfterIsLastWrite(replies, lo, hi - 1);
    }
  }

  /** The two announcements each visited element makes: its start position, then its length. */
  function Announcements(elements: seq<Element>, lo: nat, hi: nat): seq<ChangeValue>
    requires lo <= hi <= |elements|
    decreases hi
  {
    if hi == lo then []
    else
      Announcements(elements, lo, hi - 1) +
      [ChangeValue("scriptPosition", elements[hi - 1].startPos), ChangeValue("scriptLen", elements[hi - 1].len)]
  }

  /** Each element visited is announced by exactly two commands, its start position and then its length. */
  lemma {:induction false} AnnouncementsPerElement(elements: seq<Element>, lo: nat, hi: nat)
    requires lo <= hi <= |elements|
    ensures |Announcements(elements, lo, hi)| == 2 * (hi - lo)
    ensures forall m :: lo <= m < hi ==>
      Announcements(elements, lo, hi)[2 * (m - lo)] == ChangeValue("scriptPosition", elements[m].startPos) &&
      Announcements(elements, lo, hi)[2 * (m - lo) + 1] == ChangeValue("scriptLen", elements[m].len)
    decreases hi
  {
    if hi > lo {
      AnnouncementsPerElement(elements, lo, hi - 1);
    }
  }

  class Rts2Script {
    var elements: seq<Element>
    /** el_iter as an index: |elements| is elements.end (). */
    var cursor: nat
    /** currScriptElement as the index of the element, None for NULL. */
    var current: Option<nat>
    /** At least 0 while the script runs; -1 once the script is being deleted. */
    var executedCount: int
    /** The parse buffer and the parser's position in it; the buffer ends in a NUL. */
    var cmdBuf: seq<char>
    var cmdBufTop: nat

    ghost predicate Valid()
      reads this
    {
      cursor <= |elements| &&
      (current.Some? ==> current.value < |elements|) &&
      cmdBufTop < |cmdBuf|
    }

    constructor (es: seq<Element>, buf: seq<char>, top: nat)
      requires top < |buf|
      ensures Valid()
      ensures elements == es && cursor == 0 && current == None && executedCount == 0
      ensures cmdBuf == buf && cmdBufTop == top
    {
      elements := es;
      cursor := 0;
      current := None;
      executedCount := 0;
      cmdBuf := buf;
      cmdBufTop := top;
    }

    /** -1 when the whole script was parsed, otherwise the offset in the buffer where parsing stopped. */
    function GetFaultLocation(): (r: int)
      reads this
      requires Valid()
      ensures r == -1 <==> cmdBuf[cmdBufTop] == '\0'
      ensures r != -1 ==> r == cmdBufTop && r < |cmdBuf|
    {
      if cmdBuf[cmdBufTop] == '\0' then -1 else cmdBufTop
    }

    /** The cursor has passed the last element. */
    predicate IsLastCommand()
      reads this
      requires Valid()
      ensures IsLastCommand() <==> |elements| - cursor == 0
    {
      cursor == |elements|
    }

    /**
     * One step of the script: asks elements from the cursor on, skipping those that answer
     * NEXT, and acts on the first other code. replies[m] is what element m answers if asked.
     */
    method NextCommand(device: Device, replies: seq<ElementReply>) returns (ret: bv32, newCommand: Option<CommandRef>)
      requires Valid() && |replies| == |elements|
      modifies this`cursor, this`current, this`executedCount, device`queue
      ensures Valid()
      // a script being deleted answers END_SCRIPT and touches nothing
      ensures old(executedCount) < 0 ==>
        ret == NEXT_COMMAND_END_SCRIPT && newCommand == None &&
        cursor == old(cursor) && current == old(current) &&
        executedCount == old(executedCount) && device.queue == old(device.queue)
      // every element asked is announced, in order, and only those
      ensures old(executedCount) >= 0 ==>
        var stop := FirstStop(replies, old(cursor));
        device.queue == old(device.queue) + Announcements(elements, old(cursor), if stop < |elements| then stop + 1 else stop)
      // every element answered NEXT: end of script, the count is not touched
      ensures old(executedCount) >= 0 && FirstStop(replies, old(cursor)) == |elements| ==>
        ret == NEXT_COMMAND_END_SCRIPT && IsLastCommand() &&
        executedCount == old(executedCount) &&
        newCommand == CommandAfter(replies, old(cursor), |elements|) &&
        current == (if old(cursor) < |elements| then Some(|elements| - 1) else old(current))
      // some element stopped the walk: the count goes up by one
      ensures old(executedCount) >= 0 && FirstStop(replies, old(cursor)) < |elements| ==>
        var stop := FirstStop(replies, old(cursor));
        var code := replies[stop].code;
        var command := CommandAfter(replies, old(cursor), stop + 1);
        executedCount == old(executedCount) + 1 &&
        (code & NEXT_COMMAND_MASK_BLOCK != 0 ==>
          ret == StripBlock(code) && cursor == stop && current == Some(stop) && newCommand == command) &&
        (code & NEXT_COMMAND_MASK_BLOCK == 0 ==>
          ret == code &&
          (Advances(code) ==> cursor == stop + 1 && current == None && newCommand == command) &&
          (!Advances(code) ==> cursor == stop && current == Some(stop)) &&
          (code == NEXT_COMMAND_WAITING ==> newCommand == None) &&
          (!Advances(code) && code != NEXT_COMMAND_WAITING ==> newCommand == command))
    {
      newCommand := None;
      if executedCount < 0 {
        return NEXT_COMMAND_END_SCRIPT, newCommand;
      }
      ret, newCommand := AskElements(device, replies);
      if cursor == |elements| {
        return NEXT_COMMAND_END_SCRIPT, newCommand;
      }
      ret, newCommand := ActOnCode(ret, newCommand);
    }

    /**
     * The tail of nextCommand, once an element under the cursor has answered a code other
     * than NEXT: strips the block flag, or moves on past a finished element, or drops the
     * command of a waiting one, and counts the call.
     */
    method ActOnCode(code: bv32, command: Option<CommandRef>) returns (ret: bv32, newCommand: Option<CommandRef>)
      requires Valid() && cursor < |elements| && code != NEXT_COMMAND_NEXT
      modifies this`cursor, this`current, this`executedCount
      ensures Valid()
      ensures executedCount == old(executedCount) + 1
      ensures code & NEXT_COMMAND_MASK_BLOCK != 0 ==>
        ret == StripBlock(code) && cursor == old(cursor) && current == old(current) && newCommand == command
      ensures code & NEXT_COMMAND_MASK_BLOCK == 0 ==>
        ret == code &&
        (Advances(code) ==> cursor == old(cursor) + 1 && current == None && newCommand == command) &&
        (!Advances(code) ==> cursor == old(cursor) && current == old(current)) &&
        (code == NEXT_COMMAND_WAITING ==> newCommand == None) &&
        (!Advances(code) && code != NEXT_COMMAND_WAITING ==> newCommand == command)
    {
      ret, newCommand := code, command;
      if ret & NEXT_COMMAND_MASK_BLOCK != 0 {
        ret := ret & !NEXT_COMMAND_MASK_BLOCK;
        StrippedCodeIsNeverNext(code);
      } else if Advances(ret) {
        cursor := cursor + 1;
        current := None;
      } else if ret == NEXT_COMMAND_WAITING {
        newCommand := None;
      }
      if ret != NEXT_COMMAND_NEXT {
        executedCount := executedCount + 1;
      }
    }

    /**
     * One step of the walk: asks the element under the cursor, keeps the command it stores
     * and announces the element's position and length.
     */
    method AskOne(device: Device, replies: seq<ElementReply>, ghost start: nat, prev: Option<CommandRef>, ghost base: seq<ChangeValue>)
      returns (code: bv32, newCommand: Option<CommandRef>)
      requires Valid() && |replies| == |elements| && start <= cursor < |elements|
      requires prev == CommandAfter(replies, start, cursor)
      requires device.queue == base + Announcements(elements, start, cursor)
      modifies this`current, device`queue
      ensures Valid() && current == Some(cursor)
      ensures code == replies[cursor].code
      ensures newCommand == CommandAfter(replies, start, cursor + 1)
      ensures device.queue == base + Announcements(elements, start, cursor + 1)
    {
      current := Some(cursor);
      code := replies[cursor].code;
      newCommand := prev;
      if replies[cursor].write.Stores? {
        newCommand := replies[cursor].write.command;
      }
      device.queue := device.queue +
        [ChangeValue("scriptPosition", elements[cursor].startPos), ChangeValue("scriptLen", elements[cursor].len)];
    }

    /**
     * The walk of nextCommand: asks the element under the cursor, announces it, and moves
     * on while the answer is NEXT. Stops on the first other answer, with the cursor on that
     * element, or at the end of the list with END_SCRIPT.
     */
    method AskElements(device: Device, replies: seq<ElementReply>) returns (code: bv32, newCommand: Option<CommandRef>)
      requires Valid() && |replies| == |elements|
      modifies this`cursor, this`current, device`queue
      ensures Valid()
      ensures cursor == FirstStop(replies, old(cursor))
      ensures cursor < |elements| ==> code == replies[cursor].code
      ensures cursor == |elements| ==> code == NEXT_COMMAND_END_SCRIPT
      // stopped on an element: everything up to and including it was asked and announced
      ensures cursor < |elements| ==>
        device.queue == old(device.queue) + Announcements(elements, old(cursor), cursor + 1) &&
        newCommand == CommandAfter(replies, old(cursor), cursor + 1) &&
        current == Some(cursor)
      // ran off the end: every element from the old cursor on was asked and announced
      ensures cursor == |elements| ==>
        device.queue == old(device.queue) + Announcements(elements, old(cursor), cursor) &&
        newCommand == CommandAfter(replies, old(cursor), cursor) &&
        current == if old(cursor) < cursor then Some(cursor - 1) else old(current)
    {
      newCommand := None;
      ghost var start := cursor;
      while true
        invariant start <= cursor <= |elements|
        invariant FirstStop(replies, start) == FirstStop(replies, cursor)
        invariant newCommand == CommandAfter(replies, start, cursor)
        invariant device.queue == old(device.queue) + Announcements(elements, start, cursor)
        invariant start < cursor ==> current == Some(cursor - 1)
        invariant start == cursor ==> current == old(current)
        decreases |elements| - cursor
      {
        if cursor == |elements| {
          return NEXT_COMMAND_END_SCRIPT, newCommand;
        }
        code, newCommand := AskOne(device, replies, start, newCommand, old(device.queue));
        if code != NEXT_COMMAND_NEXT {
          return;
        }
        cursor := cursor + 1;
      }
    }
  }
}
