/**
 * The discrete parts of the Astro-Physics GTO mount driver: the byte-level exchange on
 * the serial line (reading a fixed count of bytes, reading up to the '#' that ends every
 * reply, the repeated write that waits for a '1'), the command strings chosen by rate,
 * mode and direction, the slew-rate value and its validation, the decision whether the
 * mount is flipped, the remapping of the UTC-offset reply, and the calendar command.
 */
module ApGto {
  import opened Wrappers
  import opened CString

  /**
   * The serial line to the mount. Reading yields the bytes the mount sends, in order;
   * when none is left, read() fails (a 0 and a -1 from read() are handled alike).
   * Each write() returns the next scripted result, and once the script is used up it
   * accepts every byte it is given.
   */
  class SerialPort {
    var input: seq<char>
    var pos: nat
    var writeResults: seq<int>
    /** The bytes handed to write(), one entry per call. */
    var writes: seq<seq<char>>

    ghost predicate Valid()
      reads this
    {
      pos <= |input|
    }

    constructor (replies: seq<char>, results: seq<int>)
      ensures Valid() && input == replies && pos == 0 && writeResults == results && writes == []
    {
      input := replies;
      pos := 0;
      writeResults := results;
      writes := [];
    }

    /** What the k-th write() on the line returns when asked to write count bytes. */
    function WriteReturn(k: nat, count: int): int
      reads this`writeResults
    {
      if k < |writeResults| then writeResults[k] else count
    }

    /** read(fd, &c, 1): 1 and the next byte, or a failure when the mount sent nothing more. */
    method ReadByte() returns (r: int, c: char)
      requires Valid()
      modifies this`pos
      ensures Valid()
      ensures old(pos) < |input| ==> r == 1 && c == input[old(pos)] && pos == old(pos) + 1
      ensures old(pos) == |input| ==> r <= 0 && pos == old(pos)
    {
      if pos < |input| {
        r, c := 1, input[pos];
        pos := pos + 1;
      } else {
        r, c := 0, '\0';
      }
    }

    /** write(fd, bytes, |bytes|). */
    method Write(bytes: seq<char>) returns (r: int)
      modifies this`writes
      ensures writes == old(writes) + [bytes]
      ensures r == WriteReturn(|old(writes)|, |bytes|)
    {
      r := WriteReturn(|writes|, |bytes|);
      writes := writes + [bytes];
    }
  }

  /** The index of the first '#' in s, or |s| when there is none. */
  function FirstHash(s: seq<char>): (h: nat)
    ensures h <= |s|
    ensures forall i :: 0 <= i < h ==> s[i] != '#'
    ensures h < |s| ==> s[h] == '#'
  {
    if s == [] || s[0] == '#' then 0 else 1 + FirstHash(s[1..])
  }

  function Min(a: int, b: int): int {
    if a < b then a else b
  }

  /**
   * What tel_read_hash returns when rest is what the mount still has to send: the index
   * of the first '#' among the first count bytes, or count when there is none, or -1
   * when the line runs dry before either.
   */
  function HashRead(rest: seq<char>, count: int): (r: int)
    ensures -1 <= r <= if count < 0 then 0 else count
    ensures r >= 0 ==> r <= |rest|
    ensures r >= 0 && r < count ==> r < |rest| && rest[r] == '#' && forall i :: 0 <= i < r ==> rest[i] != '#'
    ensures r == count && count > 0 ==> forall i :: 0 <= i < count ==> rest[i] != '#'
    ensures r == -1 <==> count > |rest| && forall i :: 0 <= i < |rest| ==> rest[i] != '#'
  {
    if count <= 0 then 0
    else
      var window := Min(count, |rest|);
      var h := FirstHash(rest[..window]);
      if h < window then h
      else if count <= |rest| then count
      else -1
  }

  /** How many bytes tel_read_hash takes from the line: up to and including the '#', or all it read. */
  function HashConsumed(rest: seq<char>, count: int): (n: nat)
    ensures n <= |rest|
    // it never reads past the first '#', and ends on one exactly when a '#' came in time
    ensures forall i :: 0 <= i < n - 1 ==> rest[i] != '#'
    ensures (n > 0 && rest[n - 1] == '#') <==> 0 <= HashRead(rest, count) < count
  {
    var r := HashRead(rest, count);
    if r == -1 then |rest|
    else if r < count then r + 1
    else r
  }

  /** The size of the buffer tel_read_hms reads into. */
  const HMS_BUFFER: nat := 11
  /** The read count tel_read_hms passes along with that buffer, as written. */
  const HMS_COUNT_AS_WRITTEN: int := 20

  /**
   * As written, tel_read_hms lets tel_read_hash store up to index 20 of an 11-byte
   * buffer: a mount that sends twenty bytes without a '#' makes it write past the end.
   */
  lemma TelReadHmsAsWrittenOverflows()
    ensures HashRead(seq(20, i => '0'), HMS_COUNT_AS_WRITTEN) == 20
    ensures HashRead(seq(20, i => '0'), HMS_COUNT_AS_WRITTEN) >= HMS_BUFFER
  {
    var s := seq(20, i => '0');
    assert forall i :: 0 <= i < |s| ==> s[i] != '#';
    assert FirstHash(s[..20]) == 20;
  }

  /** The count that fits the buffer: tel_read_hash needs one byte beyond the count for the NUL. */
  const HMS_COUNT: int := HMS_BUFFER - 1

  /** With the corrected count, whatever the mount sends, the index written stays inside the buffer. */
  lemma TelReadHmsFits(rest: seq<char>)
    ensures HashRead(rest, HMS_COUNT) < HMS_BUFFER
  {
  }

  /** The command tel_start_move writes: "#:M", the direction, '#'. */
  function MoveCommand(direction: char): (cmd: seq<char>)
    ensures |cmd| == 5 && cmd[..3] == "#:M" && cmd[3] == direction && cmd[4] == '#'
  {
    "#:M" + [direction] + "#"
  }

  /** The command tel_stop_move writes: "#:Q", the direction, '#'. */
  function StopCommand(direction: char): (cmd: seq<char>)
    ensures |cmd| == 5 && cmd[..3] == "#:Q" && cmd[3] == direction && cmd[4] == '#'
  {
    "#:Q" + [direction] + "#"
  }

  /**
   * The mount can tell every move and stop command apart: no stop is a move, and the
   * direction is read back from the command.
   */
  lemma MoveStopCommandsDistinct(a: char, b: char)
    ensures MoveCommand(a) != StopCommand(b)
    ensures MoveCommand(a) == MoveCommand(b) <==> a == b
    ensures StopCommand(a) == StopCommand(b) <==> a == b
  {
    assert MoveCommand(a)[2] != StopCommand(b)[2];
    if MoveCommand(a) == MoveCommand(b) {
      assert MoveCommand(a)[3] == MoveCommand(b)[3];
    }
    if StopCommand(a) == StopCommand(b) {
      assert StopCommand(a)[3] == StopCommand(b)[3];
    }
  }

  /** The directions the hand controller moves in. */
  const DIR_NORTH: char := 'n'
  const DIR_EAST: char := 'e'
  const DIR_SOUTH: char := 's'
  const DIR_WEST: char := 'w'

  predicate IsDirection(c: char) {
    c == DIR_EAST || c == DIR_WEST || c == DIR_NORTH || c == DIR_SOUTH
  }

  /** The order in which stopMove stops the four directions. */
  const STOP_ORDER: seq<char> := [DIR_EAST, DIR_WEST, DIR_NORTH, DIR_SOUTH]

  class Apgto {
    const port: SerialPort
    /** The APslew_rate value: 1200, 900 or 600, or -1 once a setting failed. */
    var slewRate: int

    /** The initial APslew_rate is whatever the value framework starts it at. */
    constructor (p: SerialPort, initialRate: int)
      ensures port == p && slewRate == initialRate
    {
      port := p;
      slewRate := initialRate;
    }

    /**
     * tel_read: reads count bytes one at a time into buf[off..]; fails with -1 as soon as a
     * read brings no byte, having stored the bytes read so far.
     */
    method TelRead(buf: array<char>, off: nat, count: int) returns (r: int)
      requires port.Valid()
      requires off + (if count < 0 then 0 else count) <= buf.Length
      modifies buf, port`pos
      ensures port.Valid()
      ensures var avail := |port.input| - old(port.pos);
        if count <= avail then
          r == (if count < 0 then 0 else count) && port.pos == old(port.pos) + r &&
          buf[off..off + r] == port.input[old(port.pos)..port.pos]
        else
          r == -1 && port.pos == |port.input| &&
          buf[off..off + avail] == port.input[old(port.pos)..]
      ensures forall i :: 0 <= i < buf.Length && !(off <= i < off + count) ==> buf[i] == old(buf[i])
    {
      var nRead := 0;
      while nRead < count
        invariant 0 <= nRead <= (if count < 0 then 0 else count)
        invariant port.Valid()
        invariant port.pos == old(port.pos) + nRead
        invariant buf[off..off + nRead] == port.input[old(port.pos)..port.pos]
        invariant forall i :: 0 <= i < buf.Length && !(off <= i < off + count) ==> buf[i] == old(buf[i])
      {
        var ret, c := port.ReadByte();
        if ret <= 0 {
          return -1;
        }
        buf[off + nRead] := c;
        nRead := nRead + 1;
      }
      return nRead;
    }

    /**
     * tel_read_hash: reads single bytes into buf until a '#' arrives or count bytes are
     * read, then ends the text with a NUL where the '#' was, or at index count.
     */
    method TelReadHash(buf: array<char>, count: int) returns (r: int)
      requires port.Valid()
      requires (if count < 0 then 0 else count) < buf.Length
      modifies buf, port`pos
      ensures port.Valid()
      ensures var rest := old(port.input[port.pos..]);
        r == HashRead(rest, count) &&
        port.pos == old(port.pos) + HashConsumed(rest, count) &&
        (r >= 0 ==> buf[..r] == rest[..r] && buf[r] == '\0')
    {
      ghost var rest := port.input[port.pos..];
      buf[0] := '\0';
      var read := 0;
      while read < count
        invariant 0 <= read <= (if count < 0 then 0 else count) && read <= |rest|
        invariant port.Valid()
        invariant port.pos == old(port.pos) + read
        invariant rest == port.input[old(port.pos)..]
        invariant buf[..read] == rest[..read]
        invariant forall i :: 0 <= i < read ==> rest[i] != '#'
      {
        ghost var before := port.pos;
        var ret := TelRead(buf, read, 1);
        if ret < 0 {
          assert |rest| == read;
          assert FirstHash(rest[..Min(count, |rest|)]) == |rest| by {
            assert rest[..Min(count, |rest|)] == rest;
          }
          return -1;
        }
        assert buf[read..read + 1] == port.input[before..before + 1];
        assert buf[read] == port.input[before] == rest[read];
        assert buf[..read + 1] == rest[..read + 1] by {
          assert buf[..read + 1] == buf[..read] + [buf[read]];
          assert rest[..read + 1] == rest[..read] + [rest[read]];
        }
        if buf[read] == '#' {
          assert FirstHash(rest[..Min(count, |rest|)]) == read by {
            FirstHashAt(rest[..Min(count, |rest|)], read);
          }
          break;
        }
        read := read + 1;
      }
      if read == count && count > 0 {
        assert FirstHash(rest[..Min(count, |rest|)]) == count by {
          assert rest[..Min(count, |rest|)] == rest[..count];
        }
      }
      buf[read] := '\0';
      return read;
    }

    /** tel_write_read: writes wbuf (the line is flushed first) and reads rcount bytes back. */
    method TelWriteRead(wbuf: seq<char>, rbuf: array<char>, rcount: int) returns (r: int)
      requires port.Valid()
      requires rcount <= 0 || rcount <= rbuf.Length
      modifies rbuf, port`pos, port`writes
      ensures port.Valid()
      ensures port.writes == old(port.writes) + [wbuf]
      ensures port.WriteReturn(|old(port.writes)|, |wbuf|) < 0 ==> r == -1 && port.pos == old(port.pos)
      ensures port.WriteReturn(|old(port.writes)|, |wbuf|) >= 0 ==>
        var avail := |port.input| - old(port.pos);
        if rcount <= avail then
          r == (if rcount < 0 then 0 else rcount) && port.pos == old(port.pos) + r &&
          rbuf[..r] == port.input[old(port.pos)..port.pos]
        else
          r == -1 && port.pos == |port.input|
    {
      var w := port.Write(wbuf);
      if w < 0 {
        return -1;
      }
      r := TelRead(rbuf, 0, rcount);
    }

    /** tel_write_read_hash: writes wbuf (the line is flushed first) and reads a '#'-ended reply. */
    method TelWriteReadHash(wbuf: seq<char>, rbuf: array<char>, rcount: int) returns (r: int)
      requires port.Valid()
      requires (if rcount < 0 then 0 else rcount) < rbuf.Length
      modifies rbuf, port`pos, port`writes
      ensures port.Valid()
      ensures port.writes == old(port.writes) + [wbuf]
      ensures port.WriteReturn(|old(port.writes)|, |wbuf|) < 0 ==> r == -1 && port.pos == old(port.pos)
      ensures port.WriteReturn(|old(port.writes)|, |wbuf|) >= 0 ==>
        var rest := old(port.input[port.pos..]);
        r == HashRead(rest, rcount) &&
        port.pos == old(port.pos) + HashConsumed(rest, rcount) &&
        (r >= 0 ==> rbuf[..r] == rest[..r] && rbuf[r] == '\0')
    {
      var w := port.Write(wbuf);
      if w < 0 {
        return -1;
      }
      r := TelReadHash(rbuf, rcount);
    }

    /**
     * tel_read_hms with a read count that fits its 11-byte buffer: sends the query and
     * yields the reply text, or -1 when fewer than six characters came before the '#'.
     * The conversion of the text to hours is not part of this model.
     */
    method TelReadHms(command: seq<char>) returns (r: Result<seq<char>, int>)
      requires port.Valid()
      modifies port`pos, port`writes
      ensures port.Valid()
      ensures port.writes == old(port.writes) + [command]
      ensures var rest := old(port.input[port.pos..]);
        var n := if port.WriteReturn(|old(port.writes)|, |command|) < 0 then -1 else HashRead(rest, HMS_COUNT);
        (n < 6 ==> r == Err(-1)) &&
        (n >= 6 ==> r == Ok(rest[..n]))
    {
      var wbuf := new char[HMS_BUFFER];
      var n := TelWriteReadHash(command, wbuf, HMS_COUNT);
      if n < 6 {
        return Err(-1);
      }
      return Ok(wbuf[..n]);
    }

    /**
     * tel_rep_write: sends command and reads one byte back, up to 200 times, until the
     * mount answers '1'. Any failed exchange ends it with -1 at once, and so do 200
     * answers other than '1'.
     */
    method TelRepWrite(command: seq<char>) returns (r: int)
      requires port.Valid()
      modifies port`pos, port`writes
      ensures port.Valid()
      ensures var attempts := |port.writes| - |old(port.writes)|;
        1 <= attempts <= REP_WRITE_TRIES &&
        port.writes == old(port.writes) + seq(attempts, _ => command) &&
        forall p :: old(port.pos) <= p < port.pos && (r == -1 || p < port.pos - 1) ==> port.input[p] != '1'
      ensures r == 0 ==>
        var attempts := |port.writes| - |old(port.writes)|;
        port.pos == old(port.pos) + attempts && port.input[port.pos - 1] == '1'
      ensures r == -1 ==>
        var attempts := |port.writes| - |old(port.writes)|;
        (attempts == REP_WRITE_TRIES && port.pos == old(port.pos) + REP_WRITE_TRIES) ||
        (port.pos == old(port.pos) + attempts - 1 &&
         (port.WriteReturn(|port.writes| - 1, |command|) < 0 || port.pos == |port.input|))
      ensures r == 0 || r == -1
    {
      var count := 0;
      var retstr := new char[1];
      while count < REP_WRITE_TRIES
        invariant 0 <= count <= REP_WRITE_TRIES
        invariant port.Valid()
        invariant port.writes == old(port.writes) + seq(count, _ => command)
        invariant port.pos == old(port.pos) + count
        invariant forall p :: old(port.pos) <= p < port.pos ==> port.input[p] != '1'
      {
        ghost var before := port.pos;
        var ret := TelWriteRead(command, retstr, 1);
        assert port.writes == old(port.writes) + seq(count + 1, _ => command);
        if ret < 0 {
          return -1;
        }
        assert retstr[..1] == port.input[before..before + 1];
        assert retstr[0] == port.input[before];
        if retstr[0] == '1' {
          return 0;
        }
        count := count + 1;
      }
      return -1;
    }

    /** Writes a table command, or fails with -1 without writing when the table has no entry. */
    method WriteTableCommand(entry: Option<seq<char>>) returns (r: int)
      modifies port`writes
      ensures entry.None? ==> r == -1 && port.writes == old(port.writes)
      ensures entry.Some? ==>
        port.writes == old(port.writes) + [entry.value] &&
        var w := port.WriteReturn(|old(port.writes)|, |entry.value|);
        r == if w < 0 then w else 0
    {
      if entry.None? {
        return -1;
      }
      var w := port.Write(entry.value);
      r := if w < 0 then w else 0;
    }

    /** selectAPMoveToRate: 0..6 choose the guide and centering rates. */
    method SelectAPMoveToRate(moveToRate: int) returns (r: int)
      modifies port`writes
      ensures !(0 <= moveToRate <= 6) ==> r == -1 && port.writes == old(port.writes)
      ensures 0 <= moveToRate <= 6 ==>
        port.writes == old(port.writes) + [MoveToRateCommand(moveToRate).value] &&
        var w := port.WriteReturn(|old(port.writes)|, 6);
        r == if w < 0 then w else 0
    {
      r := WriteTableCommand(MoveToRateCommand(moveToRate));
    }

    /** selectAPSlewRate: 0, 1, 2 choose 1200x, 900x, 600x. */
    method SelectAPSlewRate(slewRateIndex: int) returns (r: int)
      modifies port`writes
      ensures !(0 <= slewRateIndex <= 2) ==> r == -1 && port.writes == old(port.writes)
      ensures 0 <= slewRateIndex <= 2 ==>
        port.writes == old(port.writes) + [SlewRateCommand(slewRateIndex).value] &&
        var w := port.WriteReturn(|old(port.writes)|, 6);
        r == if w < 0 then w else 0
    {
      r := WriteTableCommand(SlewRateCommand(slewRateIndex));
    }

    /** selectAPTrackingMode: 0 lunar, 1 solar, 2 sidereal, 3 zero. */
    method SelectAPTrackingMode(trackMode: int) returns (r: int)
      modifies port`writes
      ensures !(0 <= trackMode <= 3) ==> r == -1 && port.writes == old(port.writes)
      ensures 0 <= trackMode <= 3 ==>
        port.writes == old(port.writes) + [TrackingModeCommand(trackMode).value] &&
        var w := port.WriteReturn(|old(port.writes)|, 6);
        r == if w < 0 then w else 0
    {
      r := WriteTableCommand(TrackingModeCommand(trackMode));
    }

    /** swapAPButtons: 0 and 1 choose the orientation of the keypad's buttons. */
    method SwapAPButtons(currentSwap: int) returns (r: int)
      modifies port`writes
      ensures !(0 <= currentSwap <= 1) ==> r == -1 && port.writes == old(port.writes)
      ensures 0 <= currentSwap <= 1 ==>
        port.writes == old(port.writes) + [ButtonsCommand(currentSwap).value] &&
        var w := port.WriteReturn(|old(port.writes)|, 5);
        r == if w < 0 then w else 0
    {
      r := WriteTableCommand(ButtonsCommand(currentSwap));
    }

    /** tel_set_slew_rate: sends the slew-rate command and answers what write() returned. */
    method TelSetSlewRate(newRate: char) returns (r: int)
      modifies port`writes
      ensures port.writes == old(port.writes) + [SlewRateSent(newRate)]
      ensures r == port.WriteReturn(|old(port.writes)|, 5)
    {
      r := port.Write(SlewRateSent(newRate));
    }

    /** tel_start_move: -1 only when write() reports exactly one byte written. */
    method TelStartMove(direction: char) returns (r: int)
      modifies port`writes
      ensures port.writes == old(port.writes) + [MoveCommand(direction)]
      ensures r == -1 <==> port.WriteReturn(|old(port.writes)|, 5) == 1
      ensures r == 0 || r == -1
    {
      var w := port.Write(MoveCommand(direction));
      r := if w == 1 then -1 else 0;
    }

    /** tel_stop_move: -1 when write() fails. */
    method TelStopMove(direction: char) returns (r: int)
      modifies port`writes
      ensures port.writes == old(port.writes) + [StopCommand(direction)]
      ensures r == -1 <==> port.WriteReturn(|old(port.writes)|, 5) < 0
      ensures r == 0 || r == -1
    {
      var w := port.Write(StopCommand(direction));
      r := if w < 0 then -1 else 0;
    }

    /**
     * stopMove: stops east, west, north and south in that order and gives up at the first
     * write that fails.
     */
    method StopMove() returns (r: int)
      modifies port`writes
      ensures var k := |port.writes| - |old(port.writes)|;
        1 <= k <= 4 &&
        port.writes == old(port.writes) + StopCommands(STOP_ORDER[..k]) &&
        (forall j :: |old(port.writes)| <= j < |port.writes| - 1 ==> port.WriteReturn(j, 5) >= 0) &&
        (r == 0 <==> k == 4 && port.WriteReturn(|old(port.writes)| + 3, 5) >= 0) &&
        (r == -1 <==> port.WriteReturn(|old(port.writes)| + k - 1, 5) < 0)
    {
      var i := 0;
      while i < 4
        invariant 0 <= i <= 4
        invariant |port.writes| == |old(port.writes)| + i
        invariant port.writes == old(port.writes) + StopCommands(STOP_ORDER[..i])
        invariant forall j :: |old(port.writes)| <= j < |port.writes| ==> port.WriteReturn(j, 5) >= 0
      {
        var ret := TelStopMove(STOP_ORDER[i]);
        assert STOP_ORDER[..i + 1] == STOP_ORDER[..i] + [STOP_ORDER[i]];
        StopCommandsAppend(STOP_ORDER[..i], STOP_ORDER[i]);
        if ret < 0 {
          return -1;
        }
        i := i + 1;
      }
      return 0;
    }

    /** startDir: starts a move in one of the four directions; anything else is refused with -2. */
    method StartDir(dir: seq<char>) returns (r: int)
      modifies port`writes
      ensures !IsDirection(FirstChar(dir)) ==> r == -2 && port.writes == old(port.writes)
      ensures IsDirection(FirstChar(dir)) ==>
        port.writes == old(port.writes) + [MoveCommand(FirstChar(dir))] &&
        (r == -1 <==> port.WriteReturn(|old(port.writes)|, 5) == 1) && (r == 0 || r == -1)
    {
      var c := FirstChar(dir);
      if IsDirection(c) {
        r := TelStartMove(c);
      } else {
        r := -2;
      }
    }

    /** stopDir: stops a move in one of the four directions; anything else is refused with -2. */
    method StopDir(dir: seq<char>) returns (r: int)
      modifies port`writes
      ensures !IsDirection(FirstChar(dir)) ==> r == -2 && port.writes == old(port.writes)
      ensures IsDirection(FirstChar(dir)) ==>
        port.writes == old(port.writes) + [StopCommand(FirstChar(dir))] &&
        (r == -1 <==> port.WriteReturn(|old(port.writes)|, 5) < 0) && (r == 0 || r == -1)
    {
      var c := FirstChar(dir);
      if IsDirection(c) {
        r := TelStopMove(c);
      } else {
        r := -2;
      }
    }

    /**
     * valueChanged for APslew_rate: a value other than 1200, 900 or 600, or a write of the
     * slew command that does not report 5 bytes, resets the value to -1 and stops there;
     * otherwise (and for every other value) the change goes on to the telescope base class.
     */
    method ValueChanged(isSlewRate: bool) returns (delegated: bool)
      modifies this`slewRate, port`writes
      ensures !isSlewRate ==> delegated && slewRate == old(slewRate) && port.writes == old(port.writes)
      ensures isSlewRate && SlewRateChar(old(slewRate)).None? ==>
        !delegated && slewRate == -1 && port.writes == old(port.writes)
      ensures isSlewRate && SlewRateChar(old(slewRate)).Some? ==>
        port.writes == old(port.writes) + [SlewRateSent(SlewRateChar(old(slewRate)).value)] &&
        var w := port.WriteReturn(|old(port.writes)|, 5);
        (w == 5 ==> delegated && slewRate == old(slewRate)) &&
        (w != 5 ==> !delegated && slewRate == -1)
    {
      if isSlewRate {
        var command := SlewRateChar(slewRate);
        if command.None? {
          slewRate := -1;
          return false;
        }
        var ret := TelSetSlewRate(command.value);
        if ret != 5 {
          slewRate := -1;
          return false;
        }
      }
      return true;
    }

    /**
     * commandAuthorized: "slew_rate" takes exactly one integer and stores it in APslew_rate
     * only after the mount took the command; "sync" takes exactly two numbers and asks the
     * mount to take them as its position; other commands go to the base class.
     */
    method CommandAuthorized(request: Request, setToResult: int, baseResult: int, delegatedWrites: seq<seq<char>>)
      returns (r: int)
      modifies this`slewRate, port`writes
      ensures request.SlewRateRequest? && !OneInteger(request.ints) ==>
        r == -2 && slewRate == old(slewRate) && port.writes == old(port.writes)
      ensures (request.SlewRateRequest? && OneInteger(request.ints) &&
               SlewRateChar(request.ints[0].value).None?) ==>
        r == -1 && slewRate == old(slewRate) && port.writes == old(port.writes)
      ensures (request.SlewRateRequest? && OneInteger(request.ints) &&
               SlewRateChar(request.ints[0].value).Some?) ==>
        port.writes == old(port.writes) + [SlewRateSent(SlewRateChar(request.ints[0].value).value)] &&
        var w := port.WriteReturn(|old(port.writes)|, 5);
        (w == 5 ==> r == 0 && slewRate == request.ints[0].value) &&
        (w != 5 ==> r == -1 && slewRate == old(slewRate))
      // setTo and the base class write to the mount: their writes are delegatedWrites
      ensures request.SyncRequest? && !TwoNumbers(request.reals) ==>
        r == -2 && slewRate == old(slewRate) && port.writes == old(port.writes)
      ensures request.SyncRequest? && TwoNumbers(request.reals) ==>
        slewRate == old(slewRate) && port.writes == old(port.writes) + delegatedWrites &&
        r == (if setToResult != 0 then -1 else 0)
      ensures request.OtherRequest? ==>
        r == baseResult && slewRate == old(slewRate) && port.writes == old(port.writes) + delegatedWrites
    {
      match request
      case SlewRateRequest(ints) =>
        if !OneInteger(ints) {
          return -2;
        }
        var command := SlewRateChar(ints[0].value);
        if command.None? {
          return -1;
        }
        var ret := TelSetSlewRate(command.value);
        if ret != 5 {
          return -1;
        }
        slewRate := ints[0].value;
        return 0;
      case SyncRequest(reals) =>
        if !TwoNumbers(reals) {
          return -2;
        }
        port.writes := port.writes + delegatedWrites;
        if setToResult != 0 {
          return -1;
        }
        return 0;
      case OtherRequest =>
        port.writes := port.writes + delegatedWrites;
        return baseResult;
    }

    /**
     * setCalenderDate: sends "#:SC MM/DD/YY#" (the year taken modulo 100, as C's '%' does)
     * and fails unless the mount answers at least one character before its '#'.
     */
    method SetCalenderDate(dd: int, mm: int, yy: int) returns (r: int)
      requires port.Valid()
      modifies port`pos, port`writes
      ensures port.Valid()
      ensures port.writes == old(port.writes) + [CalendarCommand(dd, mm, yy)[..14]]
      ensures var n := if port.WriteReturn(|old(port.writes)|, 14) < 0 then -1
                       else HashRead(old(port.input[port.pos..]), 11);
        r == if n < 1 then -1 else 0
    {
      var temp := new char[32];
      var ret := TelWriteReadHash(CalendarCommand(dd, mm, yy)[..14], temp, 11);
      if ret < 1 {
        return -1;
      }
      return 0;
    }
  }

  lemma FirstHashAt(s: seq<char>, k: nat)
    requires k < |s| && s[k] == '#' && forall i :: 0 <= i < k ==> s[i] != '#'
    ensures FirstHash(s) == k
  {
  }

  /** tel_rep_write gives up after this many exchanges. */
  const REP_WRITE_TRIES: int := 200

  /** The first character of a C string; an empty string's is its NUL. */
  function FirstChar(s: seq<char>): char {
    if s == [] then '\0' else s[0]
  }

  /** The stop commands for a sequence of directions, in order. */
  function StopCommands(dirs: seq<char>): (cmds: seq<seq<char>>)
    ensures |cmds| == |dirs|
    // the i-th command is a five-byte stop of the i-th direction
    ensures forall i :: 0 <= i < |dirs| ==>
      |cmds[i]| == 5 && cmds[i][..3] == "#:Q" && cmds[i][3] == dirs[i] && cmds[i][4] == '#'
  {
    seq(|dirs|, i requires 0 <= i < |dirs| => StopCommand(dirs[i]))
  }

  lemma StopCommandsAppend(dirs: seq<char>, d: char)
    ensures StopCommands(dirs + [d]) == StopCommands(dirs) + [StopCommand(d)]
  {
  }

  /** selectAPMoveToRate's table: 0.25x, 0.5x, 1x guiding, then 12x, 64x, 600x, 1200x centering. */
  function MoveToRateCommand(moveToRate: int): (cmd: Option<seq<char>>)
    ensures cmd.Some? <==> 0 <= moveToRate <= 6
    ensures cmd.Some? ==> |cmd.value| == 6 && cmd.value[..3] == "#:R" && cmd.value[5] == '#'
    ensures cmd.Some? ==> cmd.value[3] == (if moveToRate <= 2 then 'G' else 'C')
  {
    match moveToRate
    case 0 => Some("#:RG0#")
    case 1 => Some("#:RG1#")
    case 2 => Some("#:RG2#")
    case 3 => Some("#:RC0#")
    case 4 => Some("#:RC1#")
    case 5 => Some("#:RC2#")
    case 6 => Some("#:RC3#")
    case _ => None
  }

  /** selectAPSlewRate's table: 0, 1, 2 for 1200x, 900x, 600x. */
  function SlewRateCommand(slewRateIndex: int): (cmd: Option<seq<char>>)
    ensures cmd.Some? <==> 0 <= slewRateIndex <= 2
    ensures cmd.Some? ==> |cmd.value| == 6 && cmd.value[..4] == "#:RS" && cmd.value[5] == '#'
  {
    match slewRateIndex
    case 0 => Some("#:RS2#")
    case 1 => Some("#:RS1#")
    case 2 => Some("#:RS0#")
    case _ => None
  }

  /** selectAPTrackingMode's table: lunar, solar, sidereal, zero. */
  function TrackingModeCommand(trackMode: int): (cmd: Option<seq<char>>)
    ensures cmd.Some? <==> 0 <= trackMode <= 3
    ensures cmd.Some? ==> |cmd.value| == 6 && cmd.value[..4] == "#:RT" && cmd.value[5] == '#'
  {
    match trackMode
    case 0 => Some("#:RT0#")
    case 1 => Some("#:RT1#")
    case 2 => Some("#:RT2#")
    case 3 => Some("#:RT9#")
    case _ => None
  }

  /** swapAPButtons's table. */
  function ButtonsCommand(currentSwap: int): (cmd: Option<seq<char>>)
    ensures cmd.Some? <==> 0 <= currentSwap <= 1
    ensures cmd.Some? ==> |cmd.value| == 5 && cmd.value[..2] == "#:" && cmd.value[4] == '#'
  {
    match currentSwap
    case 0 => Some("#:NS#")
    case 1 => Some("#:EW#")
    case _ => None
  }

  /** Different entries of each table are different commands, so each choice reaches the mount as itself. */
  lemma CommandTablesInjective(a: int, b: int)
    requires a != b
    ensures MoveToRateCommand(a).Some? && MoveToRateCommand(b).Some? ==> MoveToRateCommand(a) != MoveToRateCommand(b)
    ensures SlewRateCommand(a).Some? && SlewRateCommand(b).Some? ==> SlewRateCommand(a) != SlewRateCommand(b)
    ensures TrackingModeCommand(a).Some? && TrackingModeCommand(b).Some? ==> TrackingModeCommand(a) != TrackingModeCommand(b)
    ensures ButtonsCommand(a).Some? && ButtonsCommand(b).Some? ==> ButtonsCommand(a) != ButtonsCommand(b)
  {
    if MoveToRateCommand(a).Some? && MoveToRateCommand(b).Some? {
      var x, y := MoveToRateCommand(a).value, MoveToRateCommand(b).value;
      assert x[3] != y[3] || x[4] != y[4];
    }
    if SlewRateCommand(a).Some? && SlewRateCommand(b).Some? {
      assert SlewRateCommand(a).value[4] != SlewRateCommand(b).value[4];
    }
    if TrackingModeCommand(a).Some? && TrackingModeCommand(b).Some? {
      assert TrackingModeCommand(a).value[4] != TrackingModeCommand(b).value[4];
    }
    if ButtonsCommand(a).Some? && ButtonsCommand(b).Some? {
      assert ButtonsCommand(a).value[2] != ButtonsCommand(b).value[2];
    }
  }

  const SLEW_RATE_1200: char := '2'
  const SLEW_RATE_0900: char := '1'
  const SLEW_RATE_0600: char := '0'

  /** The rate character for an APslew_rate value; only 1200, 900 and 600 have one. */
  function SlewRateChar(rate: int): (c: Option<char>)
    ensures c.Some? <==> rate in {1200, 900, 600}
    ensures c.Some? ==> '0' <= c.value <= '2'
  {
    if rate == 1200 then Some(SLEW_RATE_1200)
    else if rate == 900 then Some(SLEW_RATE_0900)
    else if rate == 600 then Some(SLEW_RATE_0600)
    else None
  }

  /** The slew-rate character agrees with selectAPSlewRate's table: 1200x is RS2, 900x RS1, 600x RS0. */
  lemma SlewRateCharMatchesTable(rate: int)
    requires rate in {1200, 900, 600}
    ensures var index := if rate == 1200 then 0 else if rate == 900 then 1 else 2;
      SlewRateCommand(index).value == "#:RS" + [SlewRateChar(rate).value] + "#"
  {
  }

  /** The text tel_set_slew_rate formats: "#:RS", the rate character and '#'. */
  function SlewRateText(newRate: char): (text: seq<char>)
    ensures |text| == 6 && text[..4] == "#:RS" && text[4] == newRate && text[5] == '#'
  {
    "#:RS" + [newRate] + "#"
  }

  /** What tel_set_slew_rate hands to write(): the first five bytes of the text. */
  function SlewRateSent(newRate: char): (sent: seq<char>)
    ensures |sent| == 5 && sent == SlewRateText(newRate)[..5]
  {
    "#:RS" + [newRate]
  }

  /** The buffer tel_set_slew_rate formats into, as written. */
  const SLEW_BUFFER_AS_WRITTEN: int := 6

  /** As written, the text and its NUL need seven bytes of a six-byte buffer. */
  lemma SlewRateTextAsWrittenOverflows(newRate: char)
    ensures |SlewRateText(newRate)| + 1 > SLEW_BUFFER_AS_WRITTEN
  {
  }

  /** A buffer that holds the text and its NUL. */
  const SLEW_BUFFER: int := 7

  lemma SlewRateTextFits(newRate: char)
    ensures |SlewRateText(newRate)| + 1 <= SLEW_BUFFER
  {
  }

  /** The parameters of the two commands the driver handles itself, as the connection parses them. */
  datatype Request =
    | SlewRateRequest(ints: seq<Option<int>>)
    | SyncRequest(reals: seq<Option<real>>)
    | OtherRequest

  /** paramNextInteger succeeds and paramEnd holds: exactly one parameter, an integer. */
  predicate OneInteger(ps: seq<Option<int>>) {
    |ps| == 1 && ps[0].Some?
  }

  /** Two paramNextDouble calls succeed and paramEnd holds. */
  predicate TwoNumbers(ps: seq<Option<real>>) {
    |ps| == 2 && ps[0].Some? && ps[1].Some?
  }

  /** The text of the calendar command, before it is cut to the 14 bytes written. */
  function CalendarCommand(dd: int, mm: int, yy: int): (cmd: seq<char>)
    ensures |cmd| >= 14
  {
    "#:SC " + Pad2(mm) + "/" + Pad2(dd) + "/" + Pad2(CRem(yy, 100)) + "#"
  }

  /**
   * For a month and a day below 100 and a year that is not negative, the 14 bytes sent
   * are the whole command, and its fields read back as the month, the day and the year
   * modulo 100.
   */
  lemma CalendarCommandExact(dd: int, mm: int, yy: int)
    requires 0 <= dd < 100 && 0 <= mm < 100 && yy >= 0
    ensures var cmd := CalendarCommand(dd, mm, yy);
      |cmd| == 14 && cmd[..5] == "#:SC " && cmd[7] == '/' && cmd[10] == '/' && cmd[13] == '#' &&
      AllDigits(cmd[5..7]) && DigitsValue(cmd[5..7]) == mm &&
      AllDigits(cmd[8..10]) && DigitsValue(cmd[8..10]) == dd &&
      AllDigits(cmd[11..13]) && DigitsValue(cmd[11..13]) == yy % 100
  {
    Pad2TwoDigits(mm);
    Pad2TwoDigits(dd);
    Pad2TwoDigits(yy % 100);
    var cmd := CalendarCommand(dd, mm, yy);
    assert cmd[5..7] == Pad2(mm);
    assert cmd[8..10] == Pad2(dd);
    assert cmd[11..13] == Pad2(yy % 100);
  }

  /** A negative year gives a negative remainder, and the command's year field then starts with '-'. */
  lemma CalendarCommandNegativeYear(dd: int, mm: int)
    requires 0 <= dd < 100 && 0 <= mm < 100
    ensures CalendarCommand(dd, mm, -5)[11] == '-'
  {
    Pad2TwoDigits(mm);
    Pad2TwoDigits(dd);
  }

  /**
   * The flip decision of initValues: the declination axis reported "West" means flipped,
   * "East" not flipped, and any other answer makes the driver exit (None).
   */
  function FlipFromAxis(axis: seq<char>): (flip: Option<int>)
    ensures flip == Some(1) <==> axis == "West"
    ensures flip == Some(0) <==> axis == "East"
    ensures flip.None? <==> axis != "West" && axis != "East"
  {
    if axis == "West" then Some(1)
    else if axis == "East" then Some(0)
    else None
  }

  /** The character at index i of a C string, or its NUL beyond the end. */
  function CharAt(s: seq<char>, i: nat): char {
    if i < |s| then s[i] else '\0'
  }

  /**
   * The replies getAPUTCOffset takes for a negative offset: the keypad writes them with
   * 'A' or '@' first, or as "00".
   */
  predicate NegativeUtcReply(reply: seq<char>) {
    CharAt(reply, 0) == 'A' || (CharAt(reply, 0) == '0' && CharAt(reply, 1) == '0') || CharAt(reply, 0) == '@'
  }

  /** The two leading characters of a negative reply. */
  predicate NegativeLead(lead: char, digit: char) {
    lead == 'A' || (lead == '0' && digit == '0') || lead == '@'
  }

  /**
   * The remap table of getAPUTCOffset as written, applied to the two leading characters of
   * a negative reply: they become two decimal digits of hours. Err is the -1 return.
   */
  function UtcRemapAsWritten(lead: char, digit: char): (r: Result<seq<char>, int>)
    requires NegativeLead(lead, digit)
    ensures lead == 'A' ==> (r.Ok? <==> '1' <= digit <= '5')
    ensures lead == '@' ==> (r.Ok? <==> '4' <= digit <= '9')
    ensures lead == '0' ==> r.Ok?
  {
    if lead == 'A' then
      match digit
      case '5' => Ok("01")
      case '4' => Ok("02")
      case '3' => Ok("03")
      case '2' => Ok("04")
      case '1' => Ok("05")
      case _ => Err(-1)
    else if lead == '@' then
      match digit
      case '9' => Ok("07")
      case '8' => Ok("08")
      case '7' => Ok("09")
      case '6' => Ok("00")
      case '5' => Ok("11")
      case '4' => Ok("12")
      case _ => Err(-1)
    else Ok("06")
  }

  /** As written, "@6" becomes hour 0, where the run 7, 8, 9, _, 11, 12 calls for 10. */
  lemma UtcRemapAsWrittenSkipsTen()
    ensures UtcRemapAsWritten('@', '6') == Ok("00")
    ensures DigitsValue(UtcRemapAsWritten('@', '6').value) == 0
    ensures DigitsValue(UtcRemapAsWritten('@', '7').value) == 9
    ensures DigitsValue(UtcRemapAsWritten('@', '5').value) == 11
  {
  }

  /** The remap table with "@6" giving "10". */
  function UtcRemap(lead: char, digit: char): (r: Result<seq<char>, int>)
    requires NegativeLead(lead, digit)
    ensures lead == 'A' ==> (r.Ok? <==> '1' <= digit <= '5')
    ensures lead == '@' ==> (r.Ok? <==> '4' <= digit <= '9')
    ensures lead == '0' ==> r.Ok?
  {
    if lead == 'A' then
      match digit
      case '5' => Ok("01")
      case '4' => Ok("02")
      case '3' => Ok("03")
      case '2' => Ok("04")
      case '1' => Ok("05")
      case _ => Err(-1)
    else if lead == '@' then
      match digit
      case '9' => Ok("07")
      case '8' => Ok("08")
      case '7' => Ok("09")
      case '6' => Ok("10")
      case '5' => Ok("11")
      case '4' => Ok("12")
      case _ => Err(-1)
    else Ok("06")
  }

  /**
   * The remapped hours form one run: 'A' with digits 5 down to 1 gives hours 1 to 5, "00"
   * gives 6, and '@' with digits 9 down to 4 gives hours 7 to 12; the table is one to one.
   */
  lemma UtcRemapHours(lead: char, digit: char)
    requires NegativeLead(lead, digit) && UtcRemap(lead, digit).Ok?
    ensures |UtcRemap(lead, digit).value| == 2 && AllDigits(UtcRemap(lead, digit).value)
    ensures lead == 'A' ==> DigitsValue(UtcRemap(lead, digit).value) == 6 - DigitValue(digit)
    ensures lead == '0' ==> DigitsValue(UtcRemap(lead, digit).value) == 6
    ensures lead == '@' ==> DigitsValue(UtcRemap(lead, digit).value) == 16 - DigitValue(digit)
    ensures 1 <= DigitsValue(UtcRemap(lead, digit).value) <= 12
  {
    var s := UtcRemap(lead, digit).value;
    assert s[..1] == "0" || s[..1] == "1";
  }

  /**
   * The text getAPUTCOffset hands to the sexagesimal parser, for a reply read up to its
   * '#': a negative reply gets a '-' in front and its two leading characters remapped to
   * hours, any other reply is kept as it came.
   */
  function UtcOffsetText(reply: seq<char>): (r: Result<seq<char>, int>)
    ensures !NegativeUtcReply(reply) ==> r == Ok(reply)
    ensures NegativeUtcReply(reply) ==>
      (r.Ok? <==> UtcRemap(CharAt(reply, 0), CharAt(reply, 1)).Ok?)
    ensures NegativeUtcReply(reply) && r.Ok? ==>
      |reply| >= 2 && |r.value| == |reply| + 1 && r.value[0] == '-' &&
      r.value[1..3] == UtcRemap(reply[0], reply[1]).value && r.value[3..] == reply[2..]
  {
    if !NegativeUtcReply(reply) then Ok(reply)
    else
      match UtcRemap(CharAt(reply, 0), CharAt(reply, 1))
      case Err(e) => Err(e)
      case Ok(hours) =>
        assert |reply| >= 2 by { UtcRemapHours(CharAt(reply, 0), CharAt(reply, 1)); }
        Ok("-" + hours + reply[2..])
  }

  /**
   * The sign survives the remap: every remapped reply reads as a negative offset of 1 to
   * 12 hours, and a reply kept as it came gets no sign added.
   */
  lemma UtcOffsetTextSign(reply: seq<char>)
    requires UtcOffsetText(reply).Ok?
    ensures NegativeUtcReply(reply) ==>
      var t := UtcOffsetText(reply).value;
      t[0] == '-' && AllDigits(t[1..3]) && 1 <= DigitsValue(t[1..3]) <= 12
    ensures !NegativeUtcReply(reply) ==> UtcOffsetText(reply).value == reply
  {
    if NegativeUtcReply(reply) {
      UtcRemapHours(reply[0], reply[1]);
    }
  }

  /** Hour -5 as the keypad writes it and hour +5 do not read alike. */
  lemma UtcOffsetTextKeepsPositive()
    ensures UtcOffsetText("A1:00:00") == Ok("-05:00:00")
    ensures UtcOffsetText("05:00:00") == Ok("05:00:00")
  {
    assert NegativeUtcReply("A1:00:00");
    assert UtcRemap('A', '1') == Ok("05");
    assert "-" + "05" + "A1:00:00"[2..] == "-05:00:00";
    assert !NegativeUtcReply("05:00:00");
  }

  /**
   * What getAPUTCOffset hands to the parser as written: nbytes_read stays 0, so the
   * shift moves nothing and the NUL lands right after the '-'. A negative reply becomes
   * the text "-" and never reaches the table; any other reply is kept.
   */
  function UtcOffsetTextAsWritten(reply: seq<char>): (r: Result<seq<char>, int>)
    ensures r.Ok?
    ensures NegativeUtcReply(reply) ==> |r.value| == 1
    ensures !NegativeUtcReply(reply) ==> r.value == reply
  {
    if NegativeUtcReply(reply) then Ok("-") else Ok(reply)
  }

  /** As written, -5 hours and -12 hours reach the parser as the same text. */
  lemma UtcOffsetTextAsWrittenLosesHours()
    ensures UtcOffsetTextAsWritten("A1:00:00") == UtcOffsetTextAsWritten("@4:00:00") == Ok("-")
    ensures UtcOffsetText("A1:00:00") != UtcOffsetText("@4:00:00")
  {
    assert NegativeUtcReply("A1:00:00") && NegativeUtcReply("@4:00:00");
    assert UtcOffsetText("A1:00:00").value[1..3] == "05";
  }
}
