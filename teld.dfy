/**
 * The command handler of the telescope daemon (teld): a verb read from a client, its
 * parameters, the priority block that brackets commands moving the mount, the hardware
 * call behind each verb, and the worker bodies that report the moving/still state of the
 * telescope while a move or a park runs.
 *
 * Everything the handler does to the outside world is recorded, in order, as an Effect;
 * hardware results and the daemon library's answers are parameters.
 */
module Teld {
  import opened Wrappers

  /** The two values of the TEL_MASK_MOVING bits of the device status. */
  datatype Motion = Moving | Still

  /** The hardware calls the handler and its workers make. */
  datatype HwCall =
    | IsReady
    | SetTo(ra: real, dec: real)
    | MoveTo(ra: real, dec: real)
    | Park
    | StopSlewAny
    | ReadRa | ReadDec | ReadLongitude | ReadLatitude | ReadSiderealTime | ReadLocalTime

  /** What a hardware call returns: its status (negative on failure) and the value it read. */
  datatype HwReply = HwReply(status: int, value: real)

  datatype ErrorCode = DEVDEM_E_HW | DEVDEM_E_COMMAND

  /** The body a spawned worker thread runs; client_move_cancel is always its cancel hook. */
  datatype Worker = MoveWorker(ra: real, dec: real) | ParkWorker

  datatype Effect =
    | PriorityBlockStart
    | PriorityBlockEnd
    | Hardware(call: HwCall)
    | CommandEnd(error: ErrorCode, message: string)
    | ReplyLine(text: string)
    | ReplyValue(tag: string, value: real)
    | SpawnWorker(worker: Worker)
    | StatusMask(motion: Motion, message: string)

  /** The verbs teld answers. */
  predicate IsVerb(command: string) {
    command in {"ready", "set", "move", "ra", "dec", "park", "lon", "lat", "lst", "loct", "exit", "help"}
  }

  /** The verbs that read one value from the mount and reply with it. */
  predicate IsReadingVerb(command: string) {
    command in {"ra", "dec", "lon", "lat", "lst", "loct"}
  }

  /** The hardware read behind a reading verb. */
  function ReadingCall(command: string): (c: HwCall)
    requires IsReadingVerb(command)
    ensures c.ReadRa? || c.ReadDec? || c.ReadLongitude? || c.ReadLatitude? || c.ReadSiderealTime? || c.ReadLocalTime?
  {
    match command
    case "ra" => ReadRa
    case "dec" => ReadDec
    case "lon" => ReadLongitude
    case "lat" => ReadLatitude
    case "lst" => ReadSiderealTime
    case _ => ReadLocalTime
  }

  /** Each reading verb reads a different quantity. */
  lemma ReadingCallInjective(a: string, b: string)
    requires IsReadingVerb(a) && IsReadingVerb(b) && a != b
    ensures ReadingCall(a) != ReadingCall(b)
  {
  }

  /** The label of the reply line of a reading verb as written: the extended verbs all say "dec". */
  function ReadingLabelAsWritten(command: string): (tag: string)
    requires IsReadingVerb(command)
    ensures command in {"ra", "dec"} ==> tag == command
    ensures command !in {"ra", "dec"} ==> tag == "dec"
  {
    if command == "ra" then "ra" else "dec"
  }

  /** The reply for "lon" cannot be told apart from the reply for "dec". */
  lemma ReadingLabelAsWrittenIsAmbiguous()
    ensures ReadingLabelAsWritten("lon") == ReadingLabelAsWritten("dec")
    ensures ReadingCall("lon") != ReadingCall("dec")
  {
  }

  /**
   * The label of the reply line of a reading verb, as the corrected handler prints it: a
   * label a client can read back, since it is itself a reading verb and names the very
   * quantity that was read.
   */
  function ReadingLabel(command: string): (tag: string)
    requires IsReadingVerb(command)
    ensures IsReadingVerb(tag) && ReadingCall(tag) == ReadingCall(command)
  {
    command
  }

  /** Distinct reading verbs reply with distinct labels. */
  lemma ReadingLabelsDistinct(a: string, b: string)
    requires IsReadingVerb(a) && IsReadingVerb(b) && a != b
    ensures ReadingLabel(a) != ReadingLabel(b)
  {
  }

  /** The twelve lines "help" prints. */
  function HelpLines(): (lines: seq<Effect>)
    ensures |lines| == 12 && forall i :: 0 <= i < |lines| ==> lines[i].ReplyLine?
  {
    [ReplyLine("ready - is telescope ready to observe?"),
     ReplyLine("set - set telescope coordinates"),
     ReplyLine("move - move telescope"),
     ReplyLine("ra - telescope right ascenation"),
     ReplyLine("dec - telescope declination"),
     ReplyLine("park - park telescope"),
     ReplyLine("lon - telescope longtitude"),
     ReplyLine("lat - telescope latitude"),
     ReplyLine("lst - telescope local sidereal time"),
     ReplyLine("loct - telescope local time"),
     ReplyLine("exit - exit from main loop"),
     ReplyLine("help - print, what you are reading just now")]
  }

  /** "set" and "move" take exactly two parameters, both of which parse as coordinates. */
  predicate CoordinatesOk(params: seq<Option<real>>) {
    |params| == 2 && params[0].Some? && params[1].Some?
  }

  /** The status bits a sequence of effects leaves, starting from m. */
  function MotionAfter(effects: seq<Effect>, m: Motion): Motion
    decreases |effects|
  {
    if effects == [] then m
    else MotionAfter(effects[1..], if effects[0].StatusMask? then effects[0].motion else m)
  }

  /** Appending effects moves the status bits on from where the earlier ones left them. */
  lemma {:induction false} MotionAfterAppend(a: seq<Effect>, b: seq<Effect>, m: Motion)
    ensures MotionAfter(a + b, m) == MotionAfter(b, MotionAfter(a, m))
    decreases |a|
  {
    if a != [] {
      assert (a + b)[1..] == a[1..] + b;
      MotionAfterAppend(a[1..], b, if a[0].StatusMask? then a[0].motion else m);
    } else {
      assert a + b == b;
    }
  }

  /** The effects that leave the status bits alone: everything but a mask change. */
  predicate NoMask(effects: seq<Effect>) {
    forall i :: 0 <= i < |effects| ==> !effects[i].StatusMask?
  }

  /** Effects without a mask change leave the status bits where they were. */
  lemma {:induction false} MotionAfterNoMask(effects: seq<Effect>, m: Motion)
    requires NoMask(effects)
    ensures MotionAfter(effects, m) == m
    decreases |effects|
  {
    if effects != [] {
      assert NoMask(effects[1..]) by {
        forall i | 0 <= i < |effects[1..]| ensures !effects[1..][i].StatusMask? {
          assert effects[1..][i] == effects[i + 1];
        }
      }
      MotionAfterNoMask(effects[1..], m);
    }
  }

  /** The effects of start_move and start_park: MOVING, the hardware call, then STILL. */
  function WorkerRun(w: Worker, status: int): seq<Effect> {
    var call := if w.MoveWorker? then MoveTo(w.ra, w.dec) else Park;
    var started := if w.MoveWorker? then "moving of telescope started" else "parking telescope started";
    var finished := if w.MoveWorker? then "move finished" else "parked";
    [StatusMask(Moving, started), Hardware(call), StatusMask(Still, if status < 0 then "with error" else finished)]
  }

  /**
   * A worker raises the moving bits before it touches the mount and always lowers them
   * afterwards, whatever state it starts from and whether the call fails or not.
   */
  lemma WorkerRunBracketsMotion(w: Worker, status: int, m: Motion)
    ensures MotionAfter(WorkerRun(w, status), m) == Still
    ensures MotionAfter(WorkerRun(w, status)[..2], m) == Moving
    ensures WorkerRun(w, status)[1].Hardware?
    ensures WorkerRun(w, status)[2].message == "with error" <==> status < 0
  {
    var e := WorkerRun(w, status);
    assert MotionAfter(e, m) == MotionAfter(e[1..], Moving);
    assert MotionAfter(e[1..], Moving) == MotionAfter(e[2..], Moving);
    assert MotionAfter(e[2..], Moving) == MotionAfter(e[3..], Still);
    assert e[3..] == [];
    var p := e[..2];
    assert MotionAfter(p, m) == MotionAfter(p[1..], Moving);
    assert MotionAfter(p[1..], Moving) == MotionAfter(p[2..], Moving);
    assert p[2..] == [];
  }

  class Teld {
    /** Everything the handler and its workers have done, oldest first. */
    var trace: seq<Effect>
    /** Whether this device holds the priority block. */
    var blockOpen: bool
    /** The TEL_MASK_MOVING bits of the device status. */
    var motion: Motion

    /** The status bits always agree with the last mask change in the trace. */
    ghost predicate Valid()
      reads this
    {
      motion == MotionAfter(trace, Still)
    }

    constructor ()
      ensures Valid() && trace == [] && !blockOpen && motion == Still
    {
      trace := [];
      blockOpen := false;
      motion := Still;
    }

    /** Records the effects of one worker body and moves the status bits with them. */
    method Perform(effects: seq<Effect>)
      requires Valid()
      modifies this`trace, this`motion
      ensures Valid()
      ensures trace == old(trace) + effects
      ensures motion == MotionAfter(effects, old(motion))
    {
      MotionAfterAppend(trace, effects, Still);
      trace := trace + effects;
      motion := MotionAfter(effects, motion);
    }

    /** Records effects of the handler, none of which touches the status bits. */
    method Record(effects: seq<Effect>)
      requires Valid() && NoMask(effects)
      modifies this`trace
      ensures Valid() && motion == old(motion)
      ensures trace == old(trace) + effects
    {
      MotionAfterAppend(trace, effects, Still);
      MotionAfterNoMask(effects, MotionAfter(trace, Still));
      trace := trace + effects;
    }

    /**
     * The tel_call macro: makes the hardware call and, when it fails, ends the command
     * with a hardware error; the caller returns the failed status at once.
     */
    method TelCall(call: HwCall, hw: HwCall -> HwReply) returns (ret: int)
      requires Valid()
      modifies this`trace
      ensures Valid() && motion == old(motion)
      ensures ret == hw(call).status
      ensures ret < 0 ==> trace == old(trace) + [Hardware(call), CommandEnd(DEVDEM_E_HW, "Telescope error")]
      ensures ret >= 0 ==> trace == old(trace) + [Hardware(call)]
    {
      Record([Hardware(call)]);
      ret := hw(call).status;
      if ret < 0 {
        Record([CommandEnd(DEVDEM_E_HW, "Telescope error")]);
      }
    }

    /**
     * Handles one command. params are the command's parameters as the hms parser reads
     * them (None for one that does not parse), blockGranted is whether the priority block
     * can be started, and hw answers the hardware calls.
     */
    method HandleCommand(command: string, params: seq<Option<real>>, blockGranted: bool, hw: HwCall -> HwReply)
      returns (ret: int)
      requires Valid()
      modifies this`trace, this`blockOpen
      // no command changes the status bits; only the workers it spawns do
      ensures Valid() && motion == old(motion)
      // unknown verbs end the command with an error
      ensures !IsVerb(command) ==>
        ret == -1 && blockOpen == old(blockOpen) &&
        trace == old(trace) + [CommandEnd(DEVDEM_E_COMMAND, "Unknow command: '" + command + "'")]
      ensures command == "exit" ==> ret == -2 && trace == old(trace) && blockOpen == old(blockOpen)
      ensures command == "help" ==> ret == 0 && trace == old(trace) + HelpLines() && blockOpen == old(blockOpen)
      ensures command == "ready" ==>
        ret == hw(IsReady).status && blockOpen == old(blockOpen) &&
        trace == old(trace) + [Hardware(IsReady)] +
          (if ret < 0 then [CommandEnd(DEVDEM_E_HW, "Telescope error")] else [])
      ensures IsReadingVerb(command) ==>
        var reply := hw(ReadingCall(command));
        ret == reply.status && blockOpen == old(blockOpen) &&
        trace == old(trace) + [Hardware(ReadingCall(command))] +
          (if ret < 0 then [CommandEnd(DEVDEM_E_HW, "Telescope error")]
           else [ReplyValue(ReadingLabel(command), reply.value)])
      // set and move: nothing happens unless both coordinates parse and the block is granted
      ensures command in {"set", "move"} && !(CoordinatesOk(params) && blockGranted) ==>
        ret == -1 && trace == old(trace) && blockOpen == old(blockOpen)
      ensures command == "set" && CoordinatesOk(params) && blockGranted ==>
        var call := SetTo(params[0].value, params[1].value);
        ret == hw(call).status &&
        trace == old(trace) + [PriorityBlockStart, Hardware(call)] +
          (if ret < 0 then [CommandEnd(DEVDEM_E_HW, "Telescope error")] else [PriorityBlockEnd]) &&
        // a failed set leaves the priority block open
        blockOpen == (ret < 0)
      ensures command == "move" && CoordinatesOk(params) && blockGranted ==>
        ret == 0 && !blockOpen &&
        trace == old(trace) + [PriorityBlockStart, SpawnWorker(MoveWorker(params[0].value, params[1].value)), PriorityBlockEnd]
      ensures command == "park" && !blockGranted ==> ret == -1 && trace == old(trace) && blockOpen == old(blockOpen)
      ensures command == "park" && blockGranted ==>
        ret == 0 && !blockOpen && trace == old(trace) + [PriorityBlockStart, SpawnWorker(ParkWorker), PriorityBlockEnd]
    {
      if command == "ready" {
        ret := TelCall(IsReady, hw);
      } else if command == "set" || command == "move" {
        ret := HandleSetMove(command == "set", params, blockGranted, hw);
      } else if IsReadingVerb(command) {
        ret := HandleReading(command, hw);
      } else if command == "park" {
        ret := HandlePark(blockGranted);
      } else if command == "exit" {
        return -2;
      } else if command == "help" {
        Record(HelpLines());
        ret := 0;
      } else {
        Record([CommandEnd(DEVDEM_E_COMMAND, "Unknow command: '" + command + "'")]);
        return -1;
      }
    }

    /** The "set" (isSet) and "move" branches of the handler. */
    method HandleSetMove(isSet: bool, params: seq<Option<real>>, blockGranted: bool, hw: HwCall -> HwReply)
      returns (ret: int)
      requires Valid()
      modifies this`trace, this`blockOpen
      ensures Valid() && motion == old(motion)
      ensures !(CoordinatesOk(params) && blockGranted) ==>
        ret == -1 && trace == old(trace) && blockOpen == old(blockOpen)
      ensures isSet && CoordinatesOk(params) && blockGranted ==>
        ret == hw(SetTo(params[0].value, params[1].value)).status &&
        trace == old(trace) + [PriorityBlockStart, Hardware(SetTo(params[0].value, params[1].value))] +
          (if ret < 0 then [CommandEnd(DEVDEM_E_HW, "Telescope error")] else [PriorityBlockEnd]) &&
        blockOpen == (ret < 0)
      ensures !isSet && CoordinatesOk(params) && blockGranted ==>
        ret == 0 && !blockOpen &&
        trace == old(trace) + [PriorityBlockStart, SpawnWorker(MoveWorker(params[0].value, params[1].value)), PriorityBlockEnd]
    {
      if |params| != 2 || params[0].None? || params[1].None? || !blockGranted {
        return -1;
      }
      Record([PriorityBlockStart]);
      blockOpen := true;
      if isSet {
        ret := TelCall(SetTo(params[0].value, params[1].value), hw);
        if ret < 0 {
          return;
        }
        Record([PriorityBlockEnd]);
        blockOpen := false;
      } else {
        Record([SpawnWorker(MoveWorker(params[0].value, params[1].value)), PriorityBlockEnd]);
        blockOpen := false;
        return 0;
      }
    }

    /** The branch of the handler for a verb that reads one value from the mount. */
    method HandleReading(command: string, hw: HwCall -> HwReply) returns (ret: int)
      requires Valid() && IsReadingVerb(command)
      modifies this`trace
      ensures Valid() && motion == old(motion)
      ensures ret == hw(ReadingCall(command)).status
      ensures trace == old(trace) + [Hardware(ReadingCall(command))] +
        (if ret < 0 then [CommandEnd(DEVDEM_E_HW, "Telescope error")]
         else [ReplyValue(ReadingLabel(command), hw(ReadingCall(command)).value)])
    {
      var call := ReadingCall(command);
      ret := TelCall(call, hw);
      if ret < 0 {
        return;
      }
      Record([ReplyValue(ReadingLabel(command), hw(call).value)]);
    }

    /** The "park" branch of the handler. */
    method HandlePark(blockGranted: bool) returns (ret: int)
      requires Valid()
      modifies this`trace, this`blockOpen
      ensures Valid() && motion == old(motion)
      ensures !blockGranted ==> ret == -1 && trace == old(trace) && blockOpen == old(blockOpen)
      ensures blockGranted ==>
        ret == 0 && !blockOpen && trace == old(trace) + [PriorityBlockStart, SpawnWorker(ParkWorker), PriorityBlockEnd]
    {
      if !blockGranted {
        return -1;
      }
      Record([PriorityBlockStart, SpawnWorker(ParkWorker), PriorityBlockEnd]);
      blockOpen := false;
      ret := 0;
    }

    /**
     * The "park" branch as written: the same block, spawn and block end, after which the
     * handler returns its local ret, which nothing on this path assigns. garbage is
     * whatever that uninitialised local happens to hold.
     */
    method HandleParkAsWritten(blockGranted: bool, garbage: int) returns (ret: int)
      requires Valid()
      modifies this`trace, this`blockOpen
      ensures Valid() && motion == old(motion)
      ensures !blockGranted ==> ret == -1 && trace == old(trace) && blockOpen == old(blockOpen)
      ensures blockGranted ==>
        ret == garbage && !blockOpen && trace == old(trace) + [PriorityBlockStart, SpawnWorker(ParkWorker), PriorityBlockEnd]
    {
      if !blockGranted {
        return -1;
      }
      Record([PriorityBlockStart, SpawnWorker(ParkWorker), PriorityBlockEnd]);
      blockOpen := false;
      ret := garbage;
    }

    /**
     * start_move, the body of the worker "move" spawns: raises the moving bits, moves the
     * mount, and lowers the bits again with a message that says how the move ended.
     */
    method StartMove(ra: real, dec: real, hw: HwCall -> HwReply)
      requires Valid()
      modifies this`trace, this`motion
      ensures Valid() && motion == Still
      ensures trace == old(trace) + WorkerRun(MoveWorker(ra, dec), hw(MoveTo(ra, dec)).status)
    {
      WorkerRunBracketsMotion(MoveWorker(ra, dec), hw(MoveTo(ra, dec)).status, motion);
      Perform(WorkerRun(MoveWorker(ra, dec), hw(MoveTo(ra, dec)).status));
    }

    /** start_park, the body of the worker "park" spawns. */
    method StartPark(hw: HwCall -> HwReply)
      requires Valid()
      modifies this`trace, this`motion
      ensures Valid() && motion == Still
      ensures trace == old(trace) + WorkerRun(ParkWorker, hw(Park).status)
    {
      WorkerRunBracketsMotion(ParkWorker, hw(Park).status, motion);
      Perform(WorkerRun(ParkWorker, hw(Park).status));
    }

    /** client_move_cancel, run when a client cancels a move or a park: stops any slew. */
    method ClientMoveCancel()
      requires Valid()
      modifies this`trace, this`motion
      ensures Valid() && motion == Still
      ensures trace == old(trace) + [Hardware(StopSlewAny), StatusMask(Still, "move canceled")]
    {
      Perform([Hardware(StopSlewAny), StatusMask(Still, "move canceled")]);
    }
  }

  /**
   * As written, a park that was started and handed to its worker can return -2, the
   * handler's code for "exit", when the stack holds -2 where ret lives: a fresh daemon
   * asked to park starts the park worker and still reports -2.
   */
  method ParkAsWrittenCanReadAsExit() returns (ret: int, effects: seq<Effect>)
    ensures ret == -2
    ensures SpawnWorker(ParkWorker) in effects
  {
    var t := new Teld();
    ret := t.HandleParkAsWritten(true, -2);
    effects := t.trace;
    assert effects[1] == SpawnWorker(ParkWorker);
  }
}
