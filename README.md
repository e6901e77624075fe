# RTS2 sequential cores, modelled in Dafny

This project models the small deterministic cores of RTS2, the remote telescope system,
and proves what they promise. Hardware, the network and the clock become parameters.
There is one module per source file, plus two shared modules.

- **Block** (`block.dfy`) covers the inline members of the `Rts2Block` base class of every
  daemon:
  - the walk that finds the i-th connection;
  - the idle-timeout setters and the priority grant on a connection;
  - master-state storage;
  - the table of one-letter protocol verbs.
- **Script** (`script.dfy`) is the cursor state machine of `Rts2Script::nextCommand`.
  - It asks the script elements in turn and skips those that answer NEXT.
  - It announces each element's position and length on the device's command queue.
  - It strips the block flag, which every negative code carries.
  - It decides whether the cursor moves on, and counts its calls.
  - Return codes are 32-bit words (`bv32`).
- **Teld** (`teld.dfy`) is the command dispatcher of the serial telescope daemon.
  - It checks arguments and opens and closes the priority block.
  - It maps hardware failures to error replies.
  - The worker bodies raise and lower the moving bits of the status word.
  - Everything the daemon does is recorded as a trace of effects.
- **ApGto** (`apgto.dfy`) covers the discrete parts of the Astro-Physics GTO mount driver:
  - the byte exchange on the serial line, reading up to the `#` that ends every reply, and the bounded retry write;
  - the command tables for rates, modes and buttons;
  - validation of the slew-rate value and its effect on `APslew_rate`;
  - the direction checks and the east/west flip decision;
  - the sign and remap of the UTC-offset reply, and the calendar command.
  - The serial line is a class with an input stream and a list of writes.
- **Fli** (`fli.dfy`) covers the FLI filter-wheel daemon:
  - the `-D` and `-b` option mapping onto SDK bit flags;
  - the filter-number bounds;
  - the homing decision on a master-state change.
  - SDK calls are recorded, and their results are parameters.
- **Devices** (`devices.dfy`) covers the device construction of rts2saf, the auto-focus scripts:
  - the focuser range check and the focuser step range;
  - the parsing of filter definitions;
  - the filter wheels, built with their empty slots first;
  - the removal of surplus empty slots, the limit and minimum checks, and the final sort.
  - Python exceptions are an explicit error value.
  - The device proxy is the set of device names it knows.
  - The regular-expression match is a relation given as a parameter.
- **TargetInfo** (`targetinfo.dfy`) covers the `rts2-targetinfo` tool: its option flags, the whole-string target id check, and the order of its reports.
- **CString** (`cstring.dfy`) holds models of the C library pieces these use: `strtol`, the long-to-int narrowing, `strcasecmp`, `%02d` and C's `%`.
- **Wrappers** (`wrappers.dfy`) holds `Option` and `Result`.

Constants not defined in the files modelled:
- FLI SDK constants take the values of the public libfli header.
- The SERVERD status codes are a record given as a parameter.
- `DISPLAY_ALL` and `DISPLAY_SUMMARY` are taken to be two distinct bits (1 and 2).

## Model

| member | source | states |
|---|---|---|
| Block.ProtocolVerbsDistinct | src/utils/rts2block.h:36-48 | the 13 protocol verbs are one character each and pairwise distinct |
| Block.Rts2Block.ConnectionSize | src/utils/rts2block.h:247-251 | the size is the number of connections held |
| Block.Rts2Block.ConnectionAt | src/utils/rts2block.h:229-240 | for 0 <= i < size, the i-th connection in list order; NULL from size on; a negative i yields the first connection, or NULL when there is none |
| Block.Rts2Block.SetTimeout | src/utils/rts2block.h:327-331 | the idle timeout becomes exactly the argument |
| Block.Rts2Block.SetTimeoutMin | src/utils/rts2block.h:332-337 | the idle timeout never grows and becomes min(old, new) |
| Block.Rts2Block.CheckPriority | src/utils/rts2block.h:343-350 | the connection's flag is set iff it was set or its centrald id is the priority client; it is never cleared |
| Block.Rts2Block.ChangeMasterState | src/utils/rts2block.h:369-373 | the base block accepts every master state (0) |
| Block.Rts2Block.SetMasterState | src/utils/rts2block.h:374-379 | getMasterState then returns the new state; the result is the hook's |
| Block.Rts2Block.GetMasterState | src/utils/rts2block.h:380-384 | the stored master state |
| Script.StripBlock | src/plan/rts2script.h:192-195 | the result has the block bit clear and differs from the code in that bit only |
| Script.NegativeCodesCarryBlockFlag | src/plan/rts2script.h:38-57 | END_SCRIPT and NEXT carry the block bit; stripped, they read as -1048577 and -1048578 |
| Script.SmallNegativeCodesCarryBlockFlag | src/plan/rts2script.h:192-195 | every code from -2^20 to -1 carries the block bit |
| Script.StrippedCodeIsNeverNext | src/plan/rts2script.h:192-222 | a stripped code is never NEXT, so each call that leaves the loop is counted |
| Script.FirstStop | src/plan/rts2script.h:171-191 | the first element from the cursor whose answer is not NEXT; all before it answer NEXT |
| Script.CommandAfterIsLastWrite | src/plan/rts2script.h:164-177 | the command handed out is the one stored by the last element that wrote it, NULL when none did |
| Script.AnnouncementsPerElement | src/plan/rts2script.h:178-184 | each visited element queues exactly two changes, its start position then its length |
| Script.Rts2Script.GetFaultLocation | src/plan/rts2script.h:114-119 | -1 iff the parse position holds NUL, otherwise the offset of the parse position |
| Script.Rts2Script.IsLastCommand | src/plan/rts2script.h:120-123 | true iff the cursor is at the end of the elements |
| Script.Rts2Script.NextCommand | src/plan/rts2script.h:157-224 | a negative count returns END_SCRIPT and changes nothing; otherwise the cursor reaches the first non-NEXT element; at the end it returns END_SCRIPT without counting; otherwise it acts on the code as ActOnCode states and counts the call once |
| Script.Rts2Script.ActOnCode | src/plan/rts2script.h:192-222 | a code with the block bit is returned stripped with the cursor kept; the finishing codes move the cursor on and clear the current element; WAITING drops the command; other codes keep the cursor; the count rises by one |
| Script.Rts2Script.AskOne | src/plan/rts2script.h:176-184 | the element under the cursor is asked and becomes current; its two announcements are queued; the command is the last one written |
| Script.Rts2Script.AskElements | src/plan/rts2script.h:171-191 | the cursor stops at FirstStop; the code is that element's answer, or END_SCRIPT at the end; the queue holds the announcements of every element visited |
| Teld.ReadingCall | src/teld/teld.c:142-179 | each reading verb reads one of the six quantities |
| Teld.ReadingCallInjective | src/teld/teld.c:142-179 | different reading verbs read different quantities |
| Teld.ReadingLabelAsWritten | src/teld/teld.c:145-178 | as written, "ra" and "dec" reply with their own label and every other reading verb with "dec" |
| Teld.ReadingLabelAsWrittenIsAmbiguous | src/teld/teld.c:160-164 | the reply to "lon" carries the same label as the reply to "dec", though it reads another quantity |
| Teld.ReadingLabel | src/teld/teld.c:142-179 | the corrected reply label is itself a reading verb naming the very quantity read, so a client can read it back |
| Teld.ReadingLabelsDistinct | src/teld/teld.c:142-179 | distinct reading verbs reply with distinct labels |
| Teld.HelpLines | src/teld/teld.c:184-199 | "help" prints twelve reply lines |
| Teld.MotionAfterAppend | src/teld/teld.c:58-90 | the status bits after two runs of effects compose |
| Teld.WorkerRun | src/teld/teld.c:58-90 | the definition of a worker body's effects; WorkerRunBracketsMotion states what they do to the status bits |
| Teld.WorkerRunBracketsMotion | src/teld/teld.c:58-90 | a worker sets the bits to MOVING before the hardware call and to STILL after it, from any state; the message is "with error" iff the call failed |
| Teld.Teld.Perform | src/teld/teld.c:58-90 | the effects are appended to the trace and the status bits follow them |
| Teld.Teld.TelCall | src/teld/teld.c:36-41 | the hardware call is made; a negative result ends the command with a hardware error and is returned; the status bits and Valid are kept |
| Teld.Teld.HandleCommand | src/teld/teld.c:102-207 | an unknown verb: command error and -1; "exit": -2 with no call; "help": 0; "set"/"move" with bad arguments or no block: -1 before any call; a failed "set" leaves the block open; "move" spawns its worker, closes the block and returns 0; "park" returns 0 once its worker is spawned (the corrected branch); no command changes the status bits, and Valid is kept so the spawned worker can run |
| Teld.Teld.HandleSetMove | src/teld/teld.c:112-141 | the "set" and "move" branches, with the argument, block and hardware-failure cases; the status bits and Valid are kept |
| Teld.Teld.HandleReading | src/teld/teld.c:142-179 | a reading verb makes its hardware call and replies with the value under the corrected label, or ends with a hardware error; the status bits and Valid are kept |
| Teld.Teld.HandlePark | src/teld/teld.c:152-158 | the corrected branch: without the block, -1 and no effect; with it, the park worker is spawned, the block is closed and 0 is returned; the status bits and Valid are kept |
| Teld.Teld.HandleParkAsWritten | src/teld/teld.c:102-207 | as written: the same block, spawn and block end, then whatever the uninitialised local `ret` holds is returned |
| Teld.Teld.StartMove | src/teld/teld.c:58-73 | the trace gains MOVING, the move, then STILL with "move finished" or "with error"; the bits end STILL |
| Teld.Teld.StartPark | src/teld/teld.c:75-90 | the same bracket around the park, with "parked" on success |
| Teld.Teld.ClientMoveCancel | src/teld/teld.c:50-56 | a stop of any slew, then STILL with "move canceled" |
| Teld.ParkAsWrittenCanReadAsExit | src/teld/teld.c:152-158 | as written, a fresh daemon that starts the park worker can still return -2, the code for "exit" |
| ApGto.SerialPort.ReadByte | src/teld/apgto.cpp:673-684 | the next byte is delivered when one is left; otherwise the read fails and nothing is consumed |
| ApGto.SerialPort.Write | src/teld/apgto.cpp:733-737 | the bytes are recorded as one write, and its scripted result is returned |
| ApGto.FirstHash | src/teld/apgto.cpp:705-711 | the index of the first '#', with no '#' before it |
| ApGto.HashRead | src/teld/apgto.cpp:699-722 | the index of the first '#' within count bytes, or count when there is none, or -1 when the line runs dry first |
| ApGto.HashConsumed | src/teld/apgto.cpp:699-722 | tel_read_hash never reads past the first '#', and stops on one exactly when a '#' came within the count |
| ApGto.TelReadHmsAsWrittenOverflows | src/teld/apgto.cpp:812-813 | as written, twenty bytes without '#' make the read store index 20 of an 11-byte buffer |
| ApGto.TelReadHmsFits | src/teld/apgto.cpp:812-813 | with count 10, the index written stays inside the buffer whatever the mount sends |
| ApGto.MoveCommand | src/teld/apgto.cpp:1300-1305 | five bytes: "#:M", the direction, then '#' |
| ApGto.StopCommand | src/teld/apgto.cpp:1308-1314 | five bytes: "#:Q", the direction, then '#' |
| ApGto.MoveStopCommandsDistinct | src/teld/apgto.cpp:1300-1314 | no stop command is a move command, and each command determines its direction |
| ApGto.Apgto.TelRead | src/teld/apgto.cpp:666-691 | count bytes copied in order when that many arrive; otherwise -1 with all that arrived stored; the rest of the buffer untouched |
| ApGto.Apgto.TelReadHash | src/teld/apgto.cpp:699-722 | returns HashRead, consumes up to and including the '#', copies the text and ends it with NUL at the index returned |
| ApGto.Apgto.TelWriteRead | src/teld/apgto.cpp:753-780 | a failed write returns -1 without reading; otherwise as TelRead |
| ApGto.Apgto.TelWriteReadHash | src/teld/apgto.cpp:786-799 | a failed write returns -1 without reading; otherwise as TelReadHash |
| ApGto.Apgto.TelReadHms | src/teld/apgto.cpp:809-819 | the query is written; fewer than six characters before '#' give -1, otherwise the reply text |
| ApGto.Apgto.TelRepWrite | src/teld/apgto.cpp:980-1002 | 1 to 200 writes of the command; 0 exactly when a '1' came back, which was the last byte read; -1 after 200 other answers or at the first failed exchange |
| ApGto.Apgto.SelectAPMoveToRate | src/teld/apgto.cpp:452-500 | 0..6 write their table entry and return 0 or the write error; any other value returns -1 without writing |
| ApGto.Apgto.SelectAPSlewRate | src/teld/apgto.cpp:501-533 | 0..2 write RS2, RS1, RS0; any other value returns -1 without writing |
| ApGto.Apgto.SelectAPTrackingMode | src/teld/apgto.cpp:534-574 | 0..3 write RT0, RT1, RT2, RT9; any other value returns -1 without writing |
| ApGto.Apgto.SwapAPButtons | src/teld/apgto.cpp:576-600 | 0 and 1 write NS and EW; any other value returns -1 without writing |
| ApGto.Apgto.WriteTableCommand | src/teld/apgto.cpp:457-499 | no table entry: -1 and no write; otherwise one write and 0, or the write's error |
| ApGto.MoveToRateCommand | src/teld/apgto.cpp:457-497 | an entry exactly for 0..6: "#:RG" for the guide rates 0..2, "#:RC" for the centering rates |
| ApGto.SlewRateCommand | src/teld/apgto.cpp:505-531 | an entry exactly for 0..2, each an RS command |
| ApGto.TrackingModeCommand | src/teld/apgto.cpp:539-572 | an entry exactly for 0..3, each an RT command |
| ApGto.ButtonsCommand | src/teld/apgto.cpp:581-598 | an entry exactly for 0 and 1 |
| ApGto.CommandTablesInjective | src/teld/apgto.cpp:452-600 | within each table, different choices send different commands |
| ApGto.Apgto.TelSetSlewRate | src/teld/apgto.cpp:1290-1298 | the first five bytes of the slew command are written; the write's result is returned |
| ApGto.Apgto.TelStartMove | src/teld/apgto.cpp:1299-1305 | the move command is written; -1 iff the write reports exactly one byte |
| ApGto.Apgto.TelStopMove | src/teld/apgto.cpp:1307-1314 | the stop command is written; -1 iff the write fails |
| ApGto.StopCommands | src/teld/apgto.cpp:1380-1386 | the i-th command is a five-byte stop ("#:Q") of the i-th direction |
| ApGto.Apgto.StopMove | src/teld/apgto.cpp:1377-1388 | stops e, w, n, s in that order up to the first failed write; 0 iff all four succeeded, -1 iff the last write failed |
| ApGto.Apgto.StartDir | src/teld/apgto.cpp:1482-1494 | n, e, s, w start that move; anything else returns -2 without writing |
| ApGto.Apgto.StopDir | src/teld/apgto.cpp:1495-1507 | n, e, s, w stop that move; anything else returns -2 without writing |
| ApGto.SlewRateChar | src/teld/apgto.cpp:1642-1659 | a rate character exactly for 1200, 900 and 600 |
| ApGto.SlewRateCharMatchesTable | src/teld/apgto.cpp:55-57 | 1200, 900, 600 send the same RS commands as slew-rate choices 0, 1, 2 |
| ApGto.SlewRateText | src/teld/apgto.cpp:1293-1294 | six characters: "#:RS", the rate character, then '#' |
| ApGto.SlewRateSent | src/teld/apgto.cpp:1297 | what is written is the first five of them |
| ApGto.SlewRateTextAsWrittenOverflows | src/teld/apgto.cpp:1293-1294 | as written, the text and its NUL need more than the six-byte buffer |
| ApGto.SlewRateTextFits | src/teld/apgto.cpp:1293-1294 | a seven-byte buffer holds the text and its NUL |
| ApGto.Apgto.ValueChanged | src/teld/apgto.cpp:1633-1671 | a value other than 1200/900/600, or a slew write not reporting 5 bytes, resets the value to -1 and does not delegate; otherwise the change is delegated with the value kept |
| ApGto.Apgto.CommandAuthorized | src/teld/apgto.cpp:1673-1736 | "slew_rate": -2 on a parse error, -1 on a bad rate or failed write, and the value set only after a 5-byte write; "sync": -2 on a parse error with no write, otherwise setTo's writes and -1 when it fails; others: the base class's writes and result |
| ApGto.Apgto.SetCalenderDate | src/teld/apgto.cpp:631-653 | 14 bytes of the calendar command are written; -1 unless the mount answers at least one character before '#' |
| ApGto.CalendarCommand | src/teld/apgto.cpp:637-645 | the calendar text has at least the 14 bytes sent |
| ApGto.CalendarCommandExact | src/teld/apgto.cpp:637-645 | for a month and day below 100 and a year not negative, the 14 bytes are the whole command and read back as month, day and year mod 100 |
| ApGto.CalendarCommandNegativeYear | src/teld/apgto.cpp:637-645 | a negative year gives a negative C remainder, and the year field starts with '-' |
| ApGto.FlipFromAxis | src/teld/apgto.cpp:1252-1265 | "West" means flipped (1), "East" not flipped (0), anything else exits |
| ApGto.UtcRemapAsWritten | src/teld/apgto.cpp:284-356 | as written, the table remaps 'A' with digits 1..5, '@' with digits 4..9 and "00"; other digits fail with -1 |
| ApGto.UtcRemapAsWrittenSkipsTen | src/teld/apgto.cpp:321-345 | as written, "@6" gives hour 0, between "@7" at 9 and "@5" at 11 |
| ApGto.UtcRemap | src/teld/apgto.cpp:284-356 | the corrected table, applied to negative replies only: 'A' is remapped for digits 1..5, '@' for 4..9, "00" always; other digits fail with -1 |
| ApGto.UtcRemapHours | src/teld/apgto.cpp:284-356 | 'A' with d gives hour 6 - d, "00" gives 6, '@' with d gives 16 - d: two digits, hours 1 to 12, one to one |
| ApGto.UtcOffsetText | src/teld/apgto.cpp:271-365 | with the shift as intended: a reply starting 'A', '@' or "00" gets a '-' and its remapped hours, or -1; any other reply, "05" included, is kept as it came |
| ApGto.UtcOffsetTextSign | src/teld/apgto.cpp:271-365 | a remapped reply reads as minus 1 to 12 hours; a kept reply gets no sign |
| ApGto.UtcOffsetTextKeepsPositive | src/teld/apgto.cpp:271-365 | "A1" (hour -5) gives "-05" while "05" is kept as "05" |
| ApGto.UtcOffsetTextAsWritten | src/teld/apgto.cpp:259-365 | as written, every negative reply reaches the parser as the text "-"; other replies are kept |
| ApGto.UtcOffsetTextAsWrittenLosesHours | src/teld/apgto.cpp:259-365 | as written, -5 and -12 hours give the same text, which the corrected version tells apart |
| Fli.DomainFor | src/filterd/fli.cpp:72-84 | a known -D name gives the filter-wheel bit together with the one interface it names |
| Fli.DomainForRoundTrip | src/filterd/fli.cpp:72-84 | each interface's name, in any case, selects exactly that interface |
| Fli.DebugLevelFor | src/filterd/fli.cpp:85-100 | levels 1..3 are accepted and each includes FAIL |
| Fli.DebugLevelsNested | src/filterd/fli.cpp:85-100 | a higher -b level reports strictly more than a lower one |
| Fli.FilterInRange | src/filterd/fli.cpp:164-174 | the definition of setFilterNum's bounds; HomeInRange states what it admits |
| Fli.HomeInRange | src/filterd/fli.cpp:164-179 | the home position passes the bounds check iff the wheel's filter count is not negative |
| Fli.ShouldHomeMasked | src/filterd/fli.cpp:147-152 | apart from the two off states, the homing decision depends only on the masked bits |
| Fli.ShouldHome | src/filterd/fli.cpp:147-152 | the definition of the homing states; ShouldHomeMasked and ChangeMasterState state its use |
| Fli.GetFilterNum | src/filterd/fli.cpp:154-162 | -1 on SDK failure, else the position (narrowed to int) |
| Fli.Fli.constructor | src/filterd/fli.cpp:55-61 | domain FILTERWHEEL|USB and no SDK debugging |
| Fli.Fli.ProcessOption | src/filterd/fli.cpp:68-105 | -D resets the domain and then sets the named interface, or fails with -1 leaving the bare filter-wheel bit; -b sets levels 1..3, or fails with -1 and no change; other options go to the base class |
| Fli.Fli.Init | src/filterd/fli.cpp:107-145 | the base init's error, or -1 when listing finds no device; otherwise the wheel is opened as OpenWheel states; the debug level is set only when asked for |
| Fli.Fli.OpenWheel | src/filterd/fli.cpp:131-145 | -1 when opening fails; otherwise the filter count is read and its status returned |
| Fli.Fli.ReadFilterNum | src/filterd/fli.cpp:154-162 | the SDK is asked once, and the answer is GetFilterNum's |
| Fli.Fli.SetFilterNum | src/filterd/fli.cpp:164-174 | out of range: -1 with no SDK call; SDK failure: -1; otherwise the base result |
| Fli.Fli.HomeFilter | src/filterd/fli.cpp:176-179 | exactly SetFilterNum of the home position |
| Fli.Fli.ChangeMasterState | src/filterd/fli.cpp:147-152 | the wheel is homed iff ShouldHome; the base result is returned whatever homing does |
| Devices.PyRange | scripts/rts2saf/rts2saf/devices.py:291 | range() raises ValueError exactly for a step of 0 |
| Devices.RangeAscending | scripts/rts2saf/rts2saf/devices.py:230 | with a positive step the range starts at start, rises by step and stays below stop; it is empty iff start >= stop |
| Devices.RangeComplete | scripts/rts2saf/rts2saf/devices.py:312 | every start + k*step below stop is in the range |
| Devices.FocuserRangeHasMax | scripts/rts2saf/rts2saf/devices.py:230 | the steps contain max iff the step divides max - min |
| Devices.WithinLimitsIff | scripts/rts2saf/rts2saf/devices.py:225-227 | the two chained comparisons hold iff absLower <= rangeMin and rangeMax <= absUpper |
| Devices.CreateFocuser | scripts/rts2saf/rts2saf/devices.py:206-277 | None when out of limits, without FOC_DEF, or when the checked device is absent; ValueError for a step of 0; otherwise the focuser with the configured limits and its step range |
| Devices.IntTextRoundTrip | scripts/rts2saf/rts2saf/devices.py:309-311 | int() reads back the text of any integer |
| Devices.PyInt | scripts/rts2saf/rts2saf/devices.py:309-311 | the definition of int() on a str; PyIntNeedsDigit and IntTextRoundTrip state its behaviour |
| Devices.PyIntNeedsDigit | scripts/rts2saf/rts2saf/devices.py:309-311 | int() accepts only text with a digit in it |
| Devices.SplitComma | scripts/rts2saf/rts2saf/devices.py:308 | split(',') gives at least one piece |
| Devices.SplitJoin | scripts/rts2saf/rts2saf/devices.py:308 | joining the pieces with commas gives back the text, and no piece holds a comma |
| Devices.Inner | scripts/rts2saf/rts2saf/devices.py:308 | ftd[1:-1]: the definition is its first character, the result and its last character; short text gives nothing |
| Devices.ParseFilterDefinition | scripts/rts2saf/rts2saf/devices.py:307-328 | a filter read has a non-zero step, the range of its limits, and offset 0 iff its name is listed as empty |
| Devices.ParseFromItems | scripts/rts2saf/rts2saf/devices.py:308-317 | items holding a name and three integers, the last not 0, are read as that filter |
| Devices.ParseFilterDefinitionRoundTrip | scripts/rts2saf/rts2saf/devices.py:307-328 | a well-formed definition is read back as the filter it describes |
| Devices.ParseFrom | scripts/rts2saf/rts2saf/devices.py:307-328 | without an exception every definition is read; the parsed list never shrinks |
| Devices.ParseTurn | scripts/rts2saf/rts2saf/devices.py:307-328 | one turn of the definitions loop keeps the same bounds |
| Devices.ParseAllOffsets | scripts/rts2saf/rts2saf/devices.py:314-317 | every filter read has offset 0 iff its name is in EMPTY_SLOT_NAMES, and None otherwise |
| Devices.ParseFromListed | scripts/rts2saf/rts2saf/devices.py:314-317 | reading on keeps that property |
| Devices.FakeFilter | scripts/rts2saf/rts2saf/devices.py:286-304 | FAKE mode makes one filter named FAKE_FT with offset 0, or ValueError for a step of 0 |
| Devices.CreateFilters.constructor | scripts/rts2saf/rts2saf/devices.py:151-161 | the filter list starts empty |
| Devices.CreateFilters.Create | scripts/rts2saf/rts2saf/devices.py:285-330 | FAKE: the one fake filter appended; otherwise the definitions read in order, appended, and the first exception raised with the filters before it kept |
| Devices.CreateFilters.CreateFake | scripts/rts2saf/rts2saf/devices.py:286-304 | the fake filter is appended and the list returned, or the exception with no change |
| Devices.CreateFilters.CreateFromDefinitions | scripts/rts2saf/rts2saf/devices.py:306-330 | the filters appended are those ParseAll reads, and the result is its exception or the list |
| Devices.CreateFilters.ReadDefinition | scripts/rts2saf/rts2saf/devices.py:308-328 | one definition read is one turn of ParseFrom |
| Devices.FilterDict | scripts/rts2saf/rts2saf/devices.py:343 | every filter's name is a key, and each key maps to a filter of that name from the list |
| Devices.FilterDictLastWins | scripts/rts2saf/rts2saf/devices.py:343 | of two filters with one name, the later one is kept |
| Devices.LookupAllFinds | scripts/rts2saf/rts2saf/devices.py:351-360 | the lookup succeeds iff every name is defined, and then yields dict[name] for each name in order |
| Devices.LookupAllStops | scripts/rts2saf/rts2saf/devices.py:351-357 | once a name is missing, the lookup fails whatever follows |
| Devices.EmptySlotsOfSub | scripts/rts2saf/rts2saf/devices.py:395-405 | the empty slots collected are empty slots taken from the list, in order |
| Devices.EmptyFirst | scripts/rts2saf/rts2saf/devices.py:362 | the sort keeps the number of filters |
| Devices.EmptyFirstPermutes | scripts/rts2saf/rts2saf/devices.py:362 | the sort only reorders and leaves offsets descending with None last; with offsets 0 or None every empty slot comes first |
| Devices.IndexOf | scripts/rts2saf/rts2saf/devices.py:423 | the position of the first copy of the element |
| Devices.RemoveFirst | scripts/rts2saf/rts2saf/devices.py:423 | list.remove shortens the list by one; RemoveFirstAt says which element goes |
| Devices.RemoveFirstAt | scripts/rts2saf/rts2saf/devices.py:423 | list.remove drops the element at list.index(x), the first copy, and keeps the rest in order |
| Devices.RemoveFirstMultiset | scripts/rts2saf/rts2saf/devices.py:423 | list.remove takes away exactly one copy of the element |
| Devices.DropExtra | scripts/rts2saf/rts2saf/devices.py:408-426 | the loop never adds a filter, and raises only NameError or ValueError |
| Devices.DropExtraRemovesMatching | scripts/rts2saf/rts2saf/devices.py:408-426 | with a pattern, the loop never raises and removes exactly one copy of each later empty slot whose name matches |
| Devices.DropExtraRaises | scripts/rts2saf/rts2saf/devices.py:408-426 | the loop raises only NameError, exactly when there is no pattern and an extra slot to test |
| Devices.MatchingSubset | scripts/rts2saf/rts2saf/devices.py:412-421 | the slots removed are among the extra ones, and each matches a pattern |
| Devices.Selected | scripts/rts2saf/rts2saf/devices.py:374-378 | exactly the positions of the wheels FILTER WHEELS INUSE names, increasing |
| Devices.InUse | scripts/rts2saf/rts2saf/devices.py:374-378 | the in-use wheels: each is named in FILTER WHEELS INUSE, and every wheel it names is kept |
| Devices.FirstSlotSurvives | scripts/rts2saf/rts2saf/devices.py:408-426 | dropping the extra empty slots never drops the first one |
| Devices.ProcessWheel | scripts/rts2saf/rts2saf/devices.py:393-426 | the wheel keeps its name and never gains a filter; only NameError or ValueError is raised |
| Devices.ProcessWheelKeepsFirstSlot | scripts/rts2saf/rts2saf/devices.py:393-426 | a wheel keeps its first empty slot, loses exactly the matching extra ones, and raises only NameError |
| Devices.ProcessFrom | scripts/rts2saf/rts2saf/devices.py:383-431 | a loop over the in-use wheels that completes makes one wheel per wheel |
| Devices.ProcessTurn | scripts/rts2saf/rts2saf/devices.py:385-426 | one turn of that loop keeps the same count |
| Devices.ProcessWheels | scripts/rts2saf/rts2saf/devices.py:383-431 | the loop, when it completes, returns one wheel per in-use wheel |
| Devices.ProcessFromFacts | scripts/rts2saf/rts2saf/devices.py:383-431 | the completed loop returns, for each wheel, what ProcessWheel makes of it, and counts all their empty slots |
| Devices.ProcessTurnAdvances | scripts/rts2saf/rts2saf/devices.py:393-426 | a turn that goes on appends the processed wheel and counts its empty slots |
| Devices.ProcessWheelsFacts | scripts/rts2saf/rts2saf/devices.py:383-431 | the loop returns None for an absent wheel, raises when a wheel raises, or returns every wheel processed with the total empty-slot count |
| Devices.ProcessFromUnreachable | scripts/rts2saf/rts2saf/devices.py:385-391 | a wheel the proxy does not know ends the loop with None |
| Devices.ProcessFromFails | scripts/rts2saf/rts2saf/devices.py:408-426 | a wheel whose empty slots raise ends the loop with that exception |
| Devices.ProcessFromAdvances | scripts/rts2saf/rts2saf/devices.py:393-426 | a wheel processed without error is appended and its empty slots counted |
| Devices.SeqMin | scripts/rts2saf/rts2saf/devices.py:454 | min() of the steps: an element no larger than any |
| Devices.SeqMax | scripts/rts2saf/rts2saf/devices.py:455 | max() of the steps: an element no smaller than any |
| Devices.BoundsCheck | scripts/rts2saf/rts2saf/devices.py:441-469 | nothing fails when blind; only ValueError is raised; passing puts the steps of every checked wheel within the limits |
| Devices.AnyBelowMinimum | scripts/rts2saf/rts2saf/devices.py:471-477 | the definition of the minimum loop's verdict; CreateFilterWheels.CheckMinimum is proved against it |
| Devices.FilterOutOfLimits | scripts/rts2saf/rts2saf/devices.py:454-463 | ValueError iff the filter has no steps; out of limits iff some step, shifted by FOC_DEF, lies outside the absolute limits |
| Devices.UnknownFilterGivesNone | scripts/rts2saf/rts2saf/devices.py:351-357 | a wheel definition naming an undefined filter makes create return None |
| Devices.InitialWheelsNone | scripts/rts2saf/rts2saf/devices.py:351-357 | one unknown name makes building the wheels fail |
| Devices.CreateWheels | scripts/rts2saf/rts2saf/devices.py:340-489 | wheels come back only with a focuser and never more than were defined; IndexError is never raised here |
| Devices.CreatedSteps | scripts/rts2saf/rts2saf/devices.py:340-489 | a list returned came from wheels built for every definition, a completed loop, at least as many empty slots as wheels, and passed checks |
| Devices.InUseFresh | scripts/rts2saf/rts2saf/devices.py:374-378 | selecting the in-use wheels keeps them without empty slots recorded |
| Devices.CreatedSorted | scripts/rts2saf/rts2saf/devices.py:434-438 | the wheels returned are the processed in-use wheels, reordered by filter count, descending, with at least one empty slot per wheel |
| Devices.SortByFilterCountDescends | scripts/rts2saf/rts2saf/devices.py:487 | the sort puts wheels with more filters first and is a permutation |
| Devices.CreatedWheelsKept | scripts/rts2saf/rts2saf/devices.py:385-426 | each wheel returned is in use, reachable, and keeps its first empty slot |
| Devices.PassedChecksWithin | scripts/rts2saf/rts2saf/devices.py:441-481 | wheels passing the limit and minimum loops have enough steps per filter; unless blind, every wheel the loop checks (the first in use, and any with more than one filter) has its steps within the limits |
| Devices.CreatedWithinLimits | scripts/rts2saf/rts2saf/devices.py:441-481 | every wheel returned passes those checks for the focuser given |
| Devices.SortOrderSorted | scripts/rts2saf/rts2saf/devices.py:487 | Python's stable sort, reverse=True: keys descending, equal keys in their old order |
| Devices.PickSortOrder | scripts/rts2saf/rts2saf/devices.py:487 | the sort only reorders the elements |
| Devices.FilterWheel.constructor | scripts/rts2saf/rts2saf/devices.py:51-56 | a wheel with its name, its filters and no empty slots |
| Devices.FilterWheel.Check | scripts/rts2saf/rts2saf/devices.py:58-66 | True iff the proxy knows the wheel; otherwise the unset logger raises AttributeError |
| Devices.CreateFilterWheels.constructor | scripts/rts2saf/rts2saf/devices.py:334-338 | the filters, focuser and configuration given |
| Devices.CreateFilterWheels.LookupFilters | scripts/rts2saf/rts2saf/devices.py:351-360 | the filters of one definition, or None at the first unknown name |
| Devices.CreateFilterWheels.Create | scripts/rts2saf/rts2saf/devices.py:340-489 | the outcome, read from the wheel objects, is CreateWheels of the inputs; the wheels returned are fresh |
| Devices.CreateFilterWheels.SelectAndProcess | scripts/rts2saf/rts2saf/devices.py:374-489 | from the in-use selection on, the outcome is that of the specification |
| Devices.CreateFilterWheels.ProcessAndFinish | scripts/rts2saf/rts2saf/devices.py:380-489 | from the empty-slot loop on, the outcome is that of the specification |
| Devices.CreateFilterWheels.FinishCreate | scripts/rts2saf/rts2saf/devices.py:434-489 | the count check, then the checks and the sort, as FinishWheels states |
| Devices.CreateFilterWheels.CheckWheels | scripts/rts2saf/rts2saf/devices.py:440-489 | the limit, minimum and device checks and the sort, as CheckedWheels states |
| Devices.CreateFilterWheels.CheckDevicesAndSort | scripts/rts2saf/rts2saf/devices.py:483-489 | the device check over all wheels, then the sort, as ReturnedWheels states |
| Devices.CreateFilterWheels.BuildWheels | scripts/rts2saf/rts2saf/devices.py:343-364 | one fresh, distinct wheel object per definition with the values InitialWheels gives, or None when it gives None |
| Devices.CreateFilterWheels.AddWheel | scripts/rts2saf/rts2saf/devices.py:362-364 | a fresh wheel with the filters sorted empty slots first is appended |
| Devices.CreateFilterWheels.SelectInUse | scripts/rts2saf/rts2saf/devices.py:374-378 | the wheels at the Selected positions, in order |
| Devices.CreateFilterWheels.CollectEmptySlots | scripts/rts2saf/rts2saf/devices.py:395-405 | the wheel's empty slots are appended in order, and counted |
| Devices.CreateFilterWheels.MatchEmptySlotName | scripts/rts2saf/rts2saf/devices.py:414-420 | unbound iff there is no pattern; otherwise true iff some pattern matches |
| Devices.CreateFilterWheels.DropExtraEmptySlots | scripts/rts2saf/rts2saf/devices.py:408-426 | the wheel's filters become what DropExtra gives, or its exception is returned |
| Devices.CreateFilterWheels.ProcessInUse | scripts/rts2saf/rts2saf/devices.py:383-431 | the loop's exit and the wheels' new values are those ProcessWheels gives |
| Devices.CreateFilterWheels.ProcessWheelAt | scripts/rts2saf/rts2saf/devices.py:385-426 | one turn as ProcessTurn states; the other wheels keep their values |
| Devices.CreateFilterWheels.ProcessWheelObject | scripts/rts2saf/rts2saf/devices.py:393-426 | the wheel object becomes what ProcessWheel gives |
| Devices.CreateFilterWheels.CheckWheelLimits | scripts/rts2saf/rts2saf/devices.py:449-463 | ValueError when a filter has no steps, else whether a filter is out of limits |
| Devices.CreateFilterWheels.CheckBounds | scripts/rts2saf/rts2saf/devices.py:441-469 | the limit loop over the in-use wheels, as BoundsCheck states |
| Devices.CreateFilterWheels.CheckMinimum | scripts/rts2saf/rts2saf/devices.py:471-477 | true iff some filter has no more steps than the minimum |
| Devices.CreateFilterWheels.CheckAll | scripts/rts2saf/rts2saf/devices.py:483-486 | AttributeError iff some wheel is not known to the proxy |
| TargetInfo.DisplayValue | src/plan/targetinfo.cpp:83-94 | the int a set of display bits stands for: bit 0 for DISPLAY_ALL, bit 1 for DISPLAY_SUMMARY |
| TargetInfo.DisplayValueZero | src/plan/targetinfo.cpp:83-94 | a flag is 0 iff no bit was ORed into it |
| TargetInfo.ApplyOption | src/plan/targetinfo.cpp:72-99 | the definition of one option's effect; the lemmas below state its properties |
| TargetInfo.ApplyOptionOnlyAdds | src/plan/targetinfo.cpp:72-99 | an option never clears a flag; other options change no flag |
| TargetInfo.ApplyOptionIdempotent | src/plan/targetinfo.cpp:83-94 | repeating an option is the same as giving it once |
| TargetInfo.ApplyOptionCommutes | src/plan/targetinfo.cpp:72-99 | the order of two options does not matter |
| TargetInfo.ApplyOptionsFlags | src/plan/targetinfo.cpp:72-99 | after any run of options, E and o are on iff given, and the display flags are the OR of the bits of i/I and p/P |
| TargetInfo.ListingFor | src/plan/targetinfo.cpp:146-165 | the observation set is listed iff observations is on, with both display flags |
| TargetInfo.CountsNeedObservations | src/plan/targetinfo.cpp:146-165 | without observations, the counts flag changes nothing and only the images flag lists the image set |
| TargetInfo.ReportFor | src/plan/targetinfo.cpp:191-210 | a target is shown iff it is found, with the current flags |
| TargetInfo.ReportsInOrder | src/plan/targetinfo.cpp:191-210 | one report per id, in the order the ids were given |
| TargetInfo.ArgumentId | src/plan/targetinfo.cpp:101-115 | an id exactly when strtol reads the whole argument, in int range |
| TargetInfo.ArgumentIdOfParsed | src/plan/targetinfo.cpp:107 | the id is the value read, narrowed to int |
| TargetInfo.ArgumentIdOfDecimal | src/plan/targetinfo.cpp:101-115 | the text of any id in int range, with or without '-', names that id |
| TargetInfo.ArgumentIdAccepts | src/plan/targetinfo.cpp:101-115 | exactly integer texts and the empty argument are accepted; the empty one names id 0 |
| TargetInfo.ArgumentIdWraps | src/plan/targetinfo.cpp:105-107 | an id beyond int range is accepted and wraps to a different int |
| TargetInfo.TargetInfoApp.constructor | src/plan/targetinfo.cpp:46-53 | all four print flags start off, with no targets |
| TargetInfo.TargetInfoApp.ProcessOption | src/plan/targetinfo.cpp:72-99 | the flags change as ApplyOption says; the tool's own options return 0 and others the base result |
| TargetInfo.TargetInfoApp.ProcessArgs | src/plan/targetinfo.cpp:101-115 | a whole integer text appends exactly its id and returns 0; anything else returns -1 and adds nothing |
| TargetInfo.TargetInfoApp.Run | src/plan/targetinfo.cpp:191-210 | 0, with one report per target in order |
| TargetInfo.ExtendedDates | src/plan/targetinfo.cpp:124-135 | ten dates, ten days apart, from ten days after now |
| CString.ToInt32 | src/plan/targetinfo.cpp:107 | the long-to-int conversion: in int range, equal modulo 2^32, identity in range |
| CString.Atoi | src/filterd/fli.cpp:86 | atoi gives an int, and strtol's value whenever that fits |
| CString.Strtol | src/plan/targetinfo.cpp:107 | strtol in base 10: the end is within the text and the value is a long |
| CString.StrtolWholeIff | src/plan/targetinfo.cpp:107-108 | strtol consumes the whole text iff it is empty or an integer's text |
| CString.DecimalRoundTrip | src/plan/targetinfo.cpp:107 | the decimal text of n reads back as n |
| CString.StrtolOfDecimal | src/plan/targetinfo.cpp:107 | strtol reads the decimal text of n in full, as n (saturated) |
| CString.StrtolOfNegatedDecimal | src/plan/targetinfo.cpp:107 | strtol reads '-' and the text of n in full, as -n (saturated) |
| CString.Pad2 | src/teld/apgto.cpp:645 | "%02d": at least two characters, '-' first exactly for negatives, digits otherwise |
| CString.Pad2TwoDigits | src/teld/apgto.cpp:645 | "%02d" of 0..99 is two digits that read back as the number |
| CString.CRem | src/teld/apgto.cpp:637 | C's '%': a == (a / b) * b + a % b with C's truncating quotient, the remainder smaller than b in size and of a's sign |
| CString.EqualsIgnoreCase | src/filterd/fli.cpp:74-80 | the definition of strcasecmp(a, b) == 0 on ASCII |
| CString.EqualsIgnoreCaseEquivalence | src/filterd/fli.cpp:74-80 | equality up to case is reflexive, symmetric and transitive |

## Left out

- Block: the event loop, sockets, the address and user lists and `setPriorityClient` are only declared in the header. Block.Rts2Block.constructor is scaffolding, because the constructor's body is not shown.
- Script.Rts2Script.constructor is scaffolding: the parser constructor's body is not shown. The element classes are not part of this model; what each element answers is an input.
- Script: `new_device` is not modelled, and neither is the device's own processing of the queued commands.
- Teld.Teld.HandleReading: replies under the corrected label (ReadingLabel), not the "dec" that src/teld/teld.c:163-178 print for "lon", "lat", "lst" and "loct"; the label as written is ReadingLabelAsWritten (see Findings).
- Teld.Teld.HandleCommand: uses the corrected reading labels and the corrected "park" branch, which returns 0; as written, "park" returns the uninitialised `ret` (src/teld/teld.c:105, 206), modelled by Teld.Teld.HandleParkAsWritten (see Findings).
- Teld: the reply texts omit `strerror` text. `main`, syslog and the `devser` thread mechanics are left out. A spawned worker is recorded as a spawn effect, and its body is modelled separately by StartMove and StartPark.
- ApGto: serial-port setup, `tcflush` (taken to succeed), `sleep` and logging are left out. `read` and `write` are a scripted byte source and sink.
- ApGto.Apgto.TelReadHms: the conversion of the reply to hours (`hmstod`) and the `errno` test are not modelled. The method uses the corrected read count; see Findings.
- ApGto: the floating-point coordinate code is left out: `getSexComponents`, `f_scansexa`, `tel_normalize`, the RA/Dec formatting and the scaling of the UTC offset. For "sync", the result of `setTo` is a parameter.
- ApGto.UtcOffsetText: the text is what `getAPUTCOffset` would hand to `f_scansexa` if its shift worked; the reply is taken up to its '#', and `nbytes_read` as counting every byte of it. As written, `nbytes_read` stays 0 (src/teld/apgto.cpp:260), so lines 275-280 leave just "-" for every negative reply, the table is never reached, and the model of that is UtcOffsetTextAsWritten (see Findings). The conversion to hours and the out-of-range `temp_string[-1]` write on the positive branch (src/teld/apgto.cpp:364) are not modelled.
- ApGto.Apgto.CommandAuthorized: the bytes `setTo` and the base class `Telescope::commandAuthorized` write are a parameter, appended in order; what they read back from the mount is not taken from the line, and `setTo`'s result and the base result are parameters.
- ApGto.Apgto.constructor: the initial `APslew_rate` is a parameter. The value framework that initialises it is not part of this model.
- ApGto.FlipFromAxis: `exit(1)` for an axis reply that is neither "West" nor "East" is modelled as None.
- Fli: the libfli SDK calls are recorded, and their results are parameters. The SDK constants take the values of the public libfli header.
- Fli.Fli.constructor: sets the filter count to 0, where src/filterd/fli.cpp:55-61 leave `filter_count` uninitialised until `init` reads it from the wheel.
- Fli.GetFilterNum: narrowing the SDK's long to int is stated only for positions within int range.
- Devices: the device proxy is the set of names it knows. Logging is left out, and so are the `@timeout` decorator, `CheckDevices`, `CreateCCD` and `__main__`.
- Devices.CreateFocuser: the `--focrange` branch is left out (it reads `self.focDef`, which is never set). So are the `foc_min`/`foc_max` probe and the float fields (resolution, speed, temperature compensation).
- Devices: `exposureFactor` (a float read with `string.atof`) is not modelled; a fifth item must only be present.
- Devices.CreatedWithinLimits: states the limits for the returned wheels with more than one filter; that the first in-use wheel, which the loop also checks, keeps its steps within the limits is stated before the final sort, by PassedChecksWithin.
- Devices: the EMPTY_SLOT_NAMES regular-expression match is a relation given as a parameter. Filter identity in `list.remove` is taken as value equality.
- Devices: Python 2 dictionary iteration order for FILTER WHEEL DEFINITIONS is taken as the given order of the definitions.
- TargetInfo: the database lookups, `createTarget` (a parameter saying which ids are found), libnova and the printed text of `printTargetInfo` are left out. The `-t` option is delegated to the base application, as in the source.
- TargetInfo: DISPLAY_ALL and DISPLAY_SUMMARY come from a header that is not part of this model. The flags are modelled as the set of bits ORed into them.

## Findings

| source | as written | input that shows it | evidently intended | confidence | as-written member | corrected member |
|---|---|---|---|---|---|---|
| src/teld/apgto.cpp:812-813 | `tel_read_hms` passes read count 20 with an 11-byte buffer, and `tel_read_hash` writes the NUL at index count | a mount that sends 20 bytes without '#' | a read count of at most 10 | high, not executed | ApGto.TelReadHmsAsWrittenOverflows | ApGto.TelReadHmsFits |
| src/teld/apgto.cpp:260-280 | `nbytes_read` is never updated from 0, so the shift moves nothing and the NUL lands right after the inserted '-' | the reply "A1:00:00" (minus 5 hours) | the reply shifted one place right behind the '-', then remapped | high, not executed | ApGto.UtcOffsetTextAsWrittenLosesHours | ApGto.UtcOffsetTextSign |
| src/teld/apgto.cpp:338-341 | the UTC remap turns "@6" into "00" (reached only once the shift works) | the keypad reply "@6" | "10", between "09" for "@7" and "11" for "@5" | medium, not executed | ApGto.UtcRemapAsWrittenSkipsTen | ApGto.UtcRemapHours |
| src/teld/teld.c:160-178 | the replies to "lon", "lat", "lst" and "loct" are labelled "dec" | the command "lon" | each reply labelled with its own verb | medium, not executed | Teld.ReadingLabelAsWrittenIsAmbiguous | Teld.ReadingLabelsDistinct |
| src/teld/teld.c:152-158 | "park" returns the uninitialised local `ret` after spawning its worker | "park" with the block granted and -2 left on the stack | return 0, like "move" | high, not executed | Teld.ParkAsWrittenCanReadAsExit | Teld.Teld.HandlePark |
| src/teld/apgto.cpp:1293-1294 | `tel_set_slew_rate` formats "#:RS%c#" (six characters and a NUL) into `char[6]` | any rate character | a seven-byte buffer | high, not executed | ApGto.SlewRateTextAsWrittenOverflows | ApGto.SlewRateTextFits |
