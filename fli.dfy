/**
 * The FLI filter-wheel daemon: the command-line options that choose the device domain and
 * the SDK's debug level, the bounds check in front of every filter move, and the homing of
 * the wheel when the observatory goes to day, standby or off. The libfli SDK is outside the
 * model: every SDK call is recorded in a log and its status is given to the operation.
 */
module Fli {
  import opened Wrappers
  import opened CString

  // libfli.h
  const FLIDEVICE_FILTERWHEEL: bv32 := 0x200
  const FLIDOMAIN_PARALLEL_PORT: bv32 := 0x01
  const FLIDOMAIN_USB: bv32 := 0x02
  const FLIDOMAIN_SERIAL: bv32 := 0x03
  const FLIDOMAIN_INET: bv32 := 0x04
  /** The bits of a domain word that name the interface. */
  const FLIDOMAIN_MASK: bv32 := 0xff

  const FLIDEBUG_NONE: bv32 := 0x00
  const FLIDEBUG_INFO: bv32 := 0x01
  const FLIDEBUG_WARN: bv32 := 0x02
  const FLIDEBUG_FAIL: bv32 := 0x04
  const FLIDEBUG_ALL: bv32 := 0x07

  const FLI_FILTERPOSITION_HOME: int := -1

  /** The server states the daemon reacts to; their values come from the central server's headers. */
  datatype ServerdCodes = ServerdCodes(
    statusMask: bv32, day: bv32, standbyMask: bv32, softOff: bv32, hardOff: bv32)

  /** The SDK calls the daemon makes, in the order it makes them. */
  datatype SdkCall =
    | SetDebugLevel(level: bv32)
    | ListDevices(domain: bv32)
    | Open(domain: bv32)
    | GetFilterCount
    | GetFilterPos
    | SetFilterPos(position: int)

  /** What the SDK answers during init. */
  datatype InitReplies = InitReplies(
    baseInit: int, listStatus: int, deviceFound: bool, openStatus: int,
    countStatus: int, count: int)

  /** init sets the SDK's debug level only when -b asked for one. */
  function DebugCalls(level: bv32): seq<SdkCall> {
    if level != FLIDEBUG_NONE then [SetDebugLevel(level)] else []
  }

  /** The domain word for a -D argument: the filter-wheel bit and the named interface. */
  function DomainFor(name: seq<char>): (domain: Option<bv32>)
    ensures domain.Some? ==> domain.value & FLIDEVICE_FILTERWHEEL == FLIDEVICE_FILTERWHEEL
    ensures domain.Some? ==>
      domain.value & FLIDOMAIN_MASK in {FLIDOMAIN_USB, FLIDOMAIN_PARALLEL_PORT, FLIDOMAIN_SERIAL, FLIDOMAIN_INET}
  {
    if EqualsIgnoreCase("USB", name) then Some(FLIDEVICE_FILTERWHEEL | FLIDOMAIN_USB)
    else if EqualsIgnoreCase("LPT", name) then Some(FLIDEVICE_FILTERWHEEL | FLIDOMAIN_PARALLEL_PORT)
    else if EqualsIgnoreCase("SERIAL", name) then Some(FLIDEVICE_FILTERWHEEL | FLIDOMAIN_SERIAL)
    else if EqualsIgnoreCase("INET", name) then Some(FLIDEVICE_FILTERWHEEL | FLIDOMAIN_INET)
    else None
  }

  /** The name of each interface, as -D spells it. */
  function DomainName(d: bv32): seq<char>
    requires d in {FLIDOMAIN_USB, FLIDOMAIN_PARALLEL_PORT, FLIDOMAIN_SERIAL, FLIDOMAIN_INET}
  {
    if d == FLIDOMAIN_USB then "USB"
    else if d == FLIDOMAIN_PARALLEL_PORT then "LPT"
    else if d == FLIDOMAIN_SERIAL then "SERIAL"
    else "INET"
  }

  /**
   * Each interface's name, in any mix of upper and lower case, selects exactly that
   * interface: the interface bits of the domain word give back the one named.
   */
  lemma DomainForRoundTrip(d: bv32, name: seq<char>)
    requires d in {FLIDOMAIN_USB, FLIDOMAIN_PARALLEL_PORT, FLIDOMAIN_SERIAL, FLIDOMAIN_INET}
    requires EqualsIgnoreCase(DomainName(d), name)
    ensures DomainFor(name) == Some(FLIDEVICE_FILTERWHEEL | d)
    ensures DomainFor(name).value & FLIDOMAIN_MASK == d
  {
    var n := DomainName(d);
    if d != FLIDOMAIN_USB {
      assert !EqualsIgnoreCase("USB", name) by {
        if |n| == 3 {
          assert ToLowerAscii(n[0]) != ToLowerAscii("USB"[0]);
        }
      }
    }
    if d != FLIDOMAIN_PARALLEL_PORT {
      assert !EqualsIgnoreCase("LPT", name) by {
        if |n| == 3 {
          assert ToLowerAscii(n[0]) != ToLowerAscii("LPT"[0]);
        }
      }
    }
    if d != FLIDOMAIN_SERIAL && d != FLIDOMAIN_PARALLEL_PORT && d != FLIDOMAIN_USB {
      assert !EqualsIgnoreCase("SERIAL", name);
    }
  }

  /** The -b levels: 1 failures, 2 failures and warnings, 3 everything. */
  function DebugLevelFor(level: int): (bits: Option<bv32>)
    ensures bits.Some? <==> 1 <= level <= 3
    ensures bits.Some? ==> bits.value & FLIDEBUG_FAIL == FLIDEBUG_FAIL
  {
    match level
    case 1 => Some(FLIDEBUG_FAIL)
    case 2 => Some(FLIDEBUG_FAIL | FLIDEBUG_WARN)
    case 3 => Some(FLIDEBUG_ALL)
    case _ => None
  }

  /** A higher -b level reports everything a lower one does, and more. */
  lemma DebugLevelsNested(a: int, b: int)
    requires 1 <= a < b <= 3
    ensures DebugLevelFor(a).value & DebugLevelFor(b).value == DebugLevelFor(a).value
    ensures DebugLevelFor(a).value != DebugLevelFor(b).value
  {
  }

  /** setFilterNum's bounds: home (-1) or a slot below the wheel's filter count. */
  predicate FilterInRange(newFilter: int, filterCount: int) {
    !(newFilter < -1 || newFilter >= filterCount)
  }

  /** The home position passes the bounds check on every wheel that has a filter count at all. */
  lemma HomeInRange(filterCount: int)
    ensures FilterInRange(FLI_FILTERPOSITION_HOME, filterCount) <==> filterCount >= 0
  {
  }

  /** The states in which the wheel is homed: day or standby by the masked bits, or either off state. */
  predicate ShouldHome(newState: bv32, codes: ServerdCodes) {
    newState & codes.statusMask == codes.day || newState & codes.statusMask == codes.standbyMask ||
    newState == codes.softOff || newState == codes.hardOff
  }

  /**
   * Apart from the two off states, which are matched whole, the homing decision depends only
   * on the bits under the status mask.
   */
  lemma ShouldHomeMasked(s1: bv32, s2: bv32, codes: ServerdCodes)
    requires s1 & codes.statusMask == s2 & codes.statusMask
    requires s1 != codes.softOff && s1 != codes.hardOff
    requires s2 != codes.softOff && s2 != codes.hardOff
    ensures ShouldHome(s1, codes) <==> ShouldHome(s2, codes)
  {
  }

  /**
   * getFilterNum: -1 when the SDK fails, else the position the SDK reports, narrowed from
   * long to int.
   */
  function GetFilterNum(sdkStatus: int, position: int): (r: int)
    ensures sdkStatus != 0 ==> r == -1
    ensures sdkStatus == 0 && -0x8000_0000 <= position < 0x8000_0000 ==> r == position
  {
    if sdkStatus != 0 then -1 else ToInt32(position)
  }

  class Fli {
    var deviceDomain: bv32
    var fliDebug: bv32
    var filterCount: int
    var sdkCalls: seq<SdkCall>

    /** The defaults: a USB filter wheel and no SDK debugging. */
    constructor ()
      ensures deviceDomain == FLIDEVICE_FILTERWHEEL | FLIDOMAIN_USB
      ensures fliDebug == FLIDEBUG_NONE
      ensures filterCount == 0 && sdkCalls == []
    {
      deviceDomain := FLIDEVICE_FILTERWHEEL | FLIDOMAIN_USB;
      fliDebug := FLIDEBUG_NONE;
      filterCount := 0;
      sdkCalls := [];
    }

    /**
     * processOption: -D resets the domain to the bare filter-wheel bit before it looks at the
     * name, so an unknown name fails with the interface bits already cleared; -b accepts the
     * levels 1 to 3 and leaves the debug level alone otherwise; other options go to the base
     * class.
     */
    method ProcessOption(opt: char, optarg: seq<char>, baseResult: int) returns (r: int)
      modifies this`deviceDomain, this`fliDebug
      ensures opt == 'D' ==>
        fliDebug == old(fliDebug) &&
        (DomainFor(optarg).Some? ==> r == 0 && deviceDomain == DomainFor(optarg).value) &&
        (DomainFor(optarg).None? ==> r == -1 && deviceDomain == FLIDEVICE_FILTERWHEEL)
      ensures opt == 'b' ==>
        deviceDomain == old(deviceDomain) &&
        var bits := DebugLevelFor(Atoi(optarg));
        (bits.Some? ==> r == 0 && fliDebug == bits.value) &&
        (bits.None? ==> r == -1 && fliDebug == old(fliDebug))
      ensures opt != 'D' && opt != 'b' ==>
        r == baseResult && deviceDomain == old(deviceDomain) && fliDebug == old(fliDebug)
    {
      if opt == 'D' {
        deviceDomain := FLIDEVICE_FILTERWHEEL;
        if EqualsIgnoreCase("USB", optarg) {
          deviceDomain := deviceDomain | FLIDOMAIN_USB;
        } else if EqualsIgnoreCase("LPT", optarg) {
          deviceDomain := deviceDomain | FLIDOMAIN_PARALLEL_PORT;
        } else if EqualsIgnoreCase("SERIAL", optarg) {
          deviceDomain := deviceDomain | FLIDOMAIN_SERIAL;
        } else if EqualsIgnoreCase("INET", optarg) {
          deviceDomain := deviceDomain | FLIDOMAIN_INET;
        } else {
          return -1;
        }
      } else if opt == 'b' {
        var level := Atoi(optarg);
        if level == 1 {
          fliDebug := FLIDEBUG_FAIL;
        } else if level == 2 {
          fliDebug := FLIDEBUG_FAIL | FLIDEBUG_WARN;
        } else if level == 3 {
          fliDebug := FLIDEBUG_ALL;
        } else {
          return -1;
        }
      } else {
        return baseResult;
      }
      return 0;
    }

    /**
     * init: after the base class, sets the SDK debug level when one was asked for, lists the
     * devices of the domain, opens the first and reads its filter count; any failure ends it
     * with -1 (or with the base class's own error).
     */
    method Init(replies: InitReplies) returns (r: int)
      modifies this`filterCount, this`sdkCalls
      ensures replies.baseInit != 0 ==>
        r == replies.baseInit && sdkCalls == old(sdkCalls) && filterCount == old(filterCount)
      ensures replies.baseInit == 0 && (replies.listStatus != 0 || !replies.deviceFound) ==>
        r == -1 && filterCount == old(filterCount) &&
        sdkCalls == old(sdkCalls) + DebugCalls(fliDebug) + [ListDevices(deviceDomain)]
      ensures replies.baseInit == 0 && replies.listStatus == 0 && replies.deviceFound &&
              replies.openStatus != 0 ==>
        r == -1 && filterCount == old(filterCount) &&
        sdkCalls == old(sdkCalls) + DebugCalls(fliDebug) + [ListDevices(deviceDomain), Open(deviceDomain)]
      ensures replies.baseInit == 0 && replies.listStatus == 0 && replies.deviceFound &&
              replies.openStatus == 0 ==>
        sdkCalls == old(sdkCalls) + DebugCalls(fliDebug) +
                    [ListDevices(deviceDomain), Open(deviceDomain), GetFilterCount] &&
        (replies.countStatus != 0 ==> r == -1 && filterCount == old(filterCount)) &&
        (replies.countStatus == 0 ==> r == 0 && filterCount == replies.count)
    {
      if replies.baseInit != 0 {
        return replies.baseInit;
      }
      sdkCalls := sdkCalls + DebugCalls(fliDebug) + [ListDevices(deviceDomain)];
      if replies.listStatus != 0 || !replies.deviceFound {
        return -1;
      }
      r := OpenWheel(replies);
    }

    /** The second half of init: opens the device found and reads its filter count. */
    method OpenWheel(replies: InitReplies) returns (r: int)
      modifies this`filterCount, this`sdkCalls
      ensures replies.openStatus != 0 ==>
        r == -1 && filterCount == old(filterCount) && sdkCalls == old(sdkCalls) + [Open(deviceDomain)]
      ensures replies.openStatus == 0 ==>
        sdkCalls == old(sdkCalls) + [Open(deviceDomain), GetFilterCount] &&
        (replies.countStatus != 0 ==> r == -1 && filterCount == old(filterCount)) &&
        (replies.countStatus == 0 ==> r == 0 && filterCount == replies.count)
    {
      sdkCalls := sdkCalls + [Open(deviceDomain)];
      if replies.openStatus != 0 {
        return -1;
      }
      sdkCalls := sdkCalls + [GetFilterCount];
      if replies.countStatus != 0 {
        return -1;
      }
      filterCount := replies.count;
      return 0;
    }

    /** getFilterNum: asks the SDK for the wheel's position. */
    method ReadFilterNum(sdkStatus: int, position: int) returns (r: int)
      modifies this`sdkCalls
      ensures sdkCalls == old(sdkCalls) + [GetFilterPos]
      ensures r == GetFilterNum(sdkStatus, position)
    {
      sdkCalls := sdkCalls + [GetFilterPos];
      r := GetFilterNum(sdkStatus, position);
    }

    /**
     * setFilterNum: a position outside the wheel fails with -1 before the SDK is called; an
     * SDK failure gives -1; otherwise the base class records the move and its result is
     * returned.
     */
    method SetFilterNum(newFilter: int, sdkStatus: int, baseResult: int) returns (r: int)
      modifies this`sdkCalls
      ensures !FilterInRange(newFilter, filterCount) ==> r == -1 && sdkCalls == old(sdkCalls)
      ensures FilterInRange(newFilter, filterCount) ==>
        sdkCalls == old(sdkCalls) + [SetFilterPos(newFilter)] &&
        r == (if sdkStatus != 0 then -1 else baseResult)
    {
      if newFilter < -1 || newFilter >= filterCount {
        return -1;
      }
      sdkCalls := sdkCalls + [SetFilterPos(newFilter)];
      if sdkStatus != 0 {
        return -1;
      }
      return baseResult;
    }

    /** homeFilter: a move to the SDK's home position. */
    method HomeFilter(sdkStatus: int, baseResult: int) returns (r: int)
      modifies this`sdkCalls
      ensures filterCount < 0 ==> r == -1 && sdkCalls == old(sdkCalls)
      ensures filterCount >= 0 ==>
        sdkCalls == old(sdkCalls) + [SetFilterPos(FLI_FILTERPOSITION_HOME)] &&
        r == (if sdkStatus != 0 then -1 else baseResult)
    {
      HomeInRange(filterCount);
      r := SetFilterNum(FLI_FILTERPOSITION_HOME, sdkStatus, baseResult);
    }

    /**
     * changeMasterState: homes the wheel when the new state calls for it, ignores how the
     * homing went, and answers with the base class's result.
     */
    method ChangeMasterState(newState: bv32, codes: ServerdCodes, sdkStatus: int, baseSetResult: int,
                             baseResult: int) returns (r: int)
      modifies this`sdkCalls
      ensures r == baseResult
      ensures sdkCalls == old(sdkCalls) +
        (if ShouldHome(newState, codes) && filterCount >= 0
         then [SetFilterPos(FLI_FILTERPOSITION_HOME)] else [])
    {
      if ShouldHome(newState, codes) {
        var homed := HomeFilter(sdkStatus, baseSetResult);
      }
      return baseResult;
    }
  }
}
