/**
 * The device configuration of rts2saf, the autofocus scripts: the focuser's step range and
 * its check against the absolute limits, the filters parsed from their configuration lines,
 * and the filter wheels built from them with their empty slots, their limits and their
 * order. The configuration is given as values; the JSON proxy that reaches the running
 * devices is reduced to the set of device names it knows, and a regular-expression match
 * is a function parameter. Python exceptions that escape create() are Err values.
 */
module Devices {
  import opened Wrappers
  import opened CString

  /** The Python exceptions that can escape the create methods. */
  datatype PyError = ValueError | IndexError | NameError | AttributeError

  // ---------------------------------------------------------------- range()

  /** range(start, stop, step) for a step that is not 0: start, start + step, ... short of stop. */
  function RangeFrom(start: int, stop: int, step: int): seq<int>
    requires step != 0
    decreases if step > 0 then stop - start else start - stop
  {
    if (step > 0 && start < stop) || (step < 0 && start > stop) then
      [start] + RangeFrom(start + step, stop, step)
    else []
  }

  /** Python 2's range(): a step of 0 raises ValueError. */
  function PyRange(start: int, stop: int, step: int): (r: Result<seq<int>, PyError>)
    ensures r.Err? <==> step == 0
    ensures r.Err? ==> r.error == ValueError
  {
    if step == 0 then Err(ValueError) else Ok(RangeFrom(start, stop, step))
  }

  /**
   * With a positive step the range is not empty exactly when start < stop, it begins at
   * start, rises by step from one element to the next, and stays below stop.
   */
  lemma {:induction false} RangeAscending(start: int, stop: int, step: int)
    requires step > 0
    ensures var r := RangeFrom(start, stop, step);
      (|r| > 0 <==> start < stop) &&
      forall i :: 0 <= i < |r| ==> r[i] == start + i * step && r[i] < stop
    decreases stop - start
  {
    if start < stop {
      RangeAscending(start + step, stop, step);
      var r := RangeFrom(start, stop, step);
      var t := RangeFrom(start + step, stop, step);
      assert r == [start] + t;
      forall i | 1 <= i < |r| ensures r[i] == start + i * step && r[i] < stop {
        assert r[i] == t[i - 1];
        assert (i - 1) * step == i * step - step;
      }
    }
  }

  /** Every start + k * step below stop is in the range: nothing is skipped. */
  lemma {:induction false} RangeComplete(start: int, stop: int, step: int, k: nat)
    requires step > 0 && start + k * step < stop
    ensures start + k * step in RangeFrom(start, stop, step)
    decreases k
  {
    if k > 0 {
      assert start + step + (k - 1) * step == start + k * step;
      RangeComplete(start + step, stop, step, k - 1);
    }
  }

  /**
   * The focuser steps range(min, max + step, step) reach max exactly when the step divides
   * max - min.
   */
  lemma FocuserRangeHasMax(rangeMin: int, rangeMax: int, step: int)
    requires step > 0 && rangeMin <= rangeMax
    ensures rangeMax in RangeFrom(rangeMin, rangeMax + step, step) <==> (rangeMax - rangeMin) % step == 0
  {
    if rangeMax in RangeFrom(rangeMin, rangeMax + step, step) {
      RangeMaxDivides(rangeMin, rangeMax, step);
    }
    if (rangeMax - rangeMin) % step == 0 {
      DividesRangeMax(rangeMin, rangeMax, step);
    }
  }

  lemma RangeMaxDivides(rangeMin: int, rangeMax: int, step: int)
    requires step > 0 && rangeMax in RangeFrom(rangeMin, rangeMax + step, step)
    ensures (rangeMax - rangeMin) % step == 0
  {
    var r := RangeFrom(rangeMin, rangeMax + step, step);
    RangeAscending(rangeMin, rangeMax + step, step);
    var i :| 0 <= i < |r| && r[i] == rangeMax;
    assert rangeMax - rangeMin == i * step;
    MultipleMod(i, step);
  }

  lemma DividesRangeMax(rangeMin: int, rangeMax: int, step: int)
    requires step > 0 && rangeMin <= rangeMax && (rangeMax - rangeMin) % step == 0
    ensures rangeMax in RangeFrom(rangeMin, rangeMax + step, step)
  {
    var k := (rangeMax - rangeMin) / step;
    assert rangeMin + k * step == rangeMax;
    RangeComplete(rangeMin, rangeMax + step, step, k);
  }

  lemma MultipleMod(i: nat, step: int)
    requires step > 0
    ensures (i * step) % step == 0
  {
    ModUnique(i * step, step, i, 0);
  }

  /** Euclidean division is unique: a = q * b + r with 0 <= r < b leaves the remainder r. */
  lemma ModUnique(a: int, b: int, q: int, r: int)
    requires b > 0 && 0 <= r < b && a == q * b + r
    ensures a % b == r
  {
    var q0, r0 := a / b, a % b;
    assert a == q0 * b + r0;
    var d := q - q0;
    assert d * b == q * b - q0 * b;
    assert d * b == r0 - r;
  }

  // ---------------------------------------------------------------- focuser

  /**
   * The two chained comparisons create() uses to keep a focuser range inside the absolute
   * limits.
   */
  predicate WithinLimits(absLowerLimit: int, absUpperLimit: int, rangeMin: int, rangeMax: int) {
    absLowerLimit <= rangeMin <= absUpperLimit - (rangeMax - rangeMin) &&
    absLowerLimit + (rangeMax - rangeMin) <= rangeMax <= absUpperLimit
  }

  /** The chained comparisons say no more than that the range lies within the limits. */
  lemma WithinLimitsIff(absLowerLimit: int, absUpperLimit: int, rangeMin: int, rangeMax: int)
    ensures WithinLimits(absLowerLimit, absUpperLimit, rangeMin, rangeMax) <==>
      absLowerLimit <= rangeMin && rangeMax <= absUpperLimit
  {
  }

  /** The focuser's entries of the configuration. */
  datatype FocuserConfig = FocuserConfig(
    name: seq<char>, lowerLimit: int, upperLimit: int, stepSize: int,
    absLowerLimit: int, absUpperLimit: int)

  datatype Focuser = Focuser(
    name: seq<char>, absLowerLimit: int, absUpperLimit: int,
    lowerLimit: int, upperLimit: int, stepSize: int, focDef: int)

  /** What CreateFocuser.create returns: None, an exception, or the focuser and its steps. */
  datatype FocuserOutcome =
    | FocuserNone
    | FocuserRaised(error: PyError)
    | FocuserCreated(foc: Focuser, focFoff: seq<int>)

  /**
   * CreateFocuser.create on the configuration path: the range must lie within the absolute
   * limits, range() must accept the step, the device must report FOC_DEF (focDef) and,
   * when checking, the proxy must know the focuser.
   */
  function CreateFocuser(cfg: FocuserConfig, focDef: Option<int>, check: bool, present: set<seq<char>>)
    : (o: FocuserOutcome)
    ensures o.FocuserNone? <==>
      !(cfg.absLowerLimit <= cfg.lowerLimit && cfg.upperLimit <= cfg.absUpperLimit) ||
      (cfg.stepSize != 0 && (focDef.None? || (check && cfg.name !in present)))
    ensures o.FocuserRaised? <==>
      cfg.absLowerLimit <= cfg.lowerLimit && cfg.upperLimit <= cfg.absUpperLimit && cfg.stepSize == 0
    ensures o.FocuserRaised? ==> o.error == ValueError
    ensures o.FocuserCreated? ==>
      Some(o.foc.focDef) == focDef &&
      o.foc.lowerLimit == cfg.lowerLimit && o.foc.upperLimit == cfg.upperLimit &&
      o.foc.stepSize == cfg.stepSize && o.foc.name == cfg.name &&
      o.foc.absLowerLimit == cfg.absLowerLimit && o.foc.absUpperLimit == cfg.absUpperLimit &&
      PyRange(cfg.lowerLimit, cfg.upperLimit + cfg.stepSize, cfg.stepSize) == Ok(o.focFoff)
  {
    if !WithinLimits(cfg.absLowerLimit, cfg.absUpperLimit, cfg.lowerLimit, cfg.upperLimit) then
      FocuserNone
    else
      match PyRange(cfg.lowerLimit, cfg.upperLimit + cfg.stepSize, cfg.stepSize)
      case Err(e) => FocuserRaised(e)
      case Ok(focFoff) =>
        if focDef.None? then FocuserNone
        else
          var foc := Focuser(cfg.name, cfg.absLowerLimit, cfg.absUpperLimit,
                             cfg.lowerLimit, cfg.upperLimit, cfg.stepSize, focDef.value);
          if check && cfg.name !in present then FocuserNone
          else FocuserCreated(foc, focFoff)
  }

  // ---------------------------------------------------------------- int() and split()

  /** Python's int() on a str: optional white space, an optional sign, digits, optional white space. */
  function PyInt(s: seq<char>): Option<int> {
    var i := SkipSpaces(s, 0);
    var j := if i < |s| && IsSign(s[i]) then i + 1 else i;
    var k := DigitRun(s, j);
    if k == j || SkipSpaces(s, k) != |s| then None
    else
      assert IsDigit(s[j]) by { assert s[j..k][0] == s[j]; }
      var magnitude: int := DigitsValue(s[j..k]);
      Some(if i < j && s[i] == '-' then -magnitude else magnitude)
  }

  /** int() raises ValueError for a text with no digit in it. */
  lemma PyIntNeedsDigit(s: seq<char>)
    requires PyInt(s).Some?
    ensures exists j :: 0 <= j < |s| && IsDigit(s[j])
  {
    var i := SkipSpaces(s, 0);
    var j := if i < |s| && IsSign(s[i]) then i + 1 else i;
    var k := DigitRun(s, j);
    assert s[j..k][0] == s[j];
  }

  /** The text Python's str() gives an int. */
  function IntText(n: int): (s: seq<char>)
    ensures |s| >= 1 && ',' !in s
  {
    if n < 0 then "-" + Decimal(-n) else Decimal(n)
  }

  /** int() reads back what str() wrote. */
  lemma IntTextRoundTrip(n: int)
    ensures PyInt(IntText(n)) == Some(n)
  {
    var s := IntText(n);
    var d := Decimal(if n < 0 then -n else n);
    DecimalRoundTrip(if n < 0 then -n else n);
    var j := if n < 0 then 1 else 0;
    assert s[j..] == d;
    assert !IsSpace(s[0]);
    assert SkipSpaces(s, 0) == 0;
    assert n >= 0 ==> !IsSign(s[0]);
    DigitRunToEnd(s, j);
    assert s[j..|s|] == d;
  }

  /** str.split(','): the pieces between the commas, at least one. */
  function SplitComma(s: seq<char>): (parts: seq<seq<char>>)
    ensures |parts| >= 1
    decreases |s|
  {
    if s == [] then [[]]
    else if s[0] == ',' then [[]] + SplitComma(s[1..])
    else
      var rest := SplitComma(s[1..]);
      [[s[0]] + rest[0]] + rest[1..]
  }

  /** ','.join(parts) */
  function JoinComma(parts: seq<seq<char>>): seq<char>
    requires |parts| >= 1
  {
    if |parts| == 1 then parts[0] else parts[0] + "," + JoinComma(parts[1..])
  }

  /** Splitting and joining again gives back the text, and no piece holds a comma. */
  lemma {:induction false} SplitJoin(s: seq<char>)
    ensures JoinComma(SplitComma(s)) == s
    ensures forall i :: 0 <= i < |SplitComma(s)| ==> ',' !in SplitComma(s)[i]
    decreases |s|
  {
    if s != [] {
      SplitJoin(s[1..]);
      var rest := SplitComma(s[1..]);
      var parts := SplitComma(s);
      assert s == [s[0]] + s[1..];
      if s[0] == ',' {
        assert parts == [[]] + rest && parts[1..] == rest;
        assert JoinComma(parts) == [] + "," + JoinComma(rest);
      } else {
        var head := [s[0]] + rest[0];
        assert parts == [head] + rest[1..];
        if |rest| == 1 {
          assert JoinComma(rest) == rest[0];
          assert JoinComma(parts) == head;
        } else {
          assert JoinComma(rest) == rest[0] + "," + JoinComma(rest[1..]);
          assert JoinComma(parts) == head + "," + JoinComma(rest[1..]);
        }
        forall i | 0 <= i < |parts| ensures ',' !in parts[i] {
          if i > 0 {
            assert parts[i] == rest[i];
          }
        }
      }
    }
  }

  /** Text without a comma, a comma and more text split into the first text and the pieces of the rest. */
  lemma {:induction false} SplitCommaPrefix(a: seq<char>, b: seq<char>)
    requires ',' !in a
    ensures SplitComma(a + "," + b) == [a] + SplitComma(b)
    decreases |a|
  {
    if a == [] {
      assert (a + "," + b)[1..] == b;
    } else {
      assert (a + "," + b)[1..] == a[1..] + "," + b;
      SplitCommaPrefix(a[1..], b);
      assert [a[0]] + a[1..] == a;
    }
  }

  // ---------------------------------------------------------------- filters

  /**
   * A filter: its name, the offset to the empty slot (0 for an empty slot, None until the
   * camera driver sets it), its relative focus limits and step, and its focuser steps.
   */
  datatype Filter = Filter(
    name: seq<char>, offsetToEmptySlot: Option<int>,
    lowerLimit: int, upperLimit: int, stepSize: int, focFoff: seq<int>)

  /** ftd[1:-1]: the text between the first and the last character, empty for short text. */
  function Inner(s: seq<char>): (t: seq<char>)
    // the brackets around a definition are its first and last character, and t is what they enclose
    ensures |s| >= 2 ==> s == [s[0]] + t + [s[|s| - 1]]
    ensures |s| < 2 ==> t == []
  {
    if |s| < 2 then [] else s[1..|s| - 1]
  }

  /**
   * One filter definition "[name,lower,upper,step,exposure]", read in the order create()
   * reads it: a missing item raises IndexError, an item that is not an integer or a step of
   * 0 raises ValueError. The name is an empty slot when EMPTY_SLOT_NAMES lists it.
   */
  function ParseFilterDefinition(ftd: seq<char>, emptySlotNames: seq<seq<char>>): (r: Result<Filter, PyError>)
    ensures r.Ok? ==> IsListedSlot(r.value, emptySlotNames) && r.value.stepSize != 0
    ensures r.Ok? ==> r.value.focFoff == RangeFrom(r.value.lowerLimit, r.value.upperLimit + r.value.stepSize, r.value.stepSize)
  {
    var items := SplitComma(Inner(ftd));
    if |items| < 2 then Err(IndexError)
    else if PyInt(items[1]).None? then Err(ValueError)
    else if |items| < 3 then Err(IndexError)
    else if PyInt(items[2]).None? then Err(ValueError)
    else if |items| < 4 then Err(IndexError)
    else if PyInt(items[3]).None? then Err(ValueError)
    else
      var lowerLimit, upperLimit, stepSize := PyInt(items[1]).value, PyInt(items[2]).value, PyInt(items[3]).value;
      match PyRange(lowerLimit, upperLimit + stepSize, stepSize)
      case Err(e) => Err(e)
      case Ok(focFoff) =>
        if |items| < 5 then Err(IndexError)
        else
          var name := items[0];
          Ok(Filter(name, if name in emptySlotNames then Some(0) else None,
                    lowerLimit, upperLimit, stepSize, focFoff))
  }

  /** The text of a filter definition, as the configuration file writes one. */
  function FilterDefinitionText(name: seq<char>, lowerLimit: int, upperLimit: int, stepSize: int,
                                exposure: seq<char>): seq<char>
  {
    "[" + DefinitionBody(name, IntText(lowerLimit), IntText(upperLimit), IntText(stepSize), exposure) + "]"
  }

  /** The five fields joined by commas. */
  function DefinitionBody(name: seq<char>, l: seq<char>, u: seq<char>, st: seq<char>, exposure: seq<char>): seq<char> {
    name + "," + (l + "," + (u + "," + (st + "," + exposure)))
  }

  lemma InnerOfBracketed(body: seq<char>)
    ensures Inner("[" + body + "]") == body
  {
    var t := "[" + body + "]";
    assert t[1..|t| - 1] == body;
  }

  /** The items of a well-formed definition are its five fields. */
  lemma DefinitionItems(name: seq<char>, l: seq<char>, u: seq<char>, st: seq<char>, exposure: seq<char>)
    requires ',' !in name && ',' !in l && ',' !in u && ',' !in st
    ensures SplitComma(DefinitionBody(name, l, u, st, exposure)) == [name, l, u, st] + SplitComma(exposure)
  {
    SplitCommaPrefix(st, exposure);
    SplitCommaPrefix(u, st + "," + exposure);
    SplitCommaPrefix(l, u + "," + (st + "," + exposure));
    SplitCommaPrefix(name, l + "," + (u + "," + (st + "," + exposure)));
  }

  /** A definition whose items hold a name and three integers, the last not 0, and a fifth item is read as that filter. */
  lemma ParseFromItems(ftd: seq<char>, emptySlotNames: seq<seq<char>>, name: seq<char>,
                       lowerLimit: int, upperLimit: int, stepSize: int)
    requires var items := SplitComma(Inner(ftd));
      |items| >= 5 && items[0] == name && PyInt(items[1]) == Some(lowerLimit) &&
      PyInt(items[2]) == Some(upperLimit) && PyInt(items[3]) == Some(stepSize)
    requires stepSize != 0
    ensures ParseFilterDefinition(ftd, emptySlotNames) ==
      Ok(Filter(name, if name in emptySlotNames then Some(0) else None, lowerLimit, upperLimit, stepSize,
                RangeFrom(lowerLimit, upperLimit + stepSize, stepSize)))
  {
    var items := SplitComma(Inner(ftd));
    assert PyInt(items[1]).value == lowerLimit && PyInt(items[2]).value == upperLimit;
    assert PyInt(items[3]).value == stepSize;
    assert PyRange(lowerLimit, upperLimit + stepSize, stepSize) == Ok(RangeFrom(lowerLimit, upperLimit + stepSize, stepSize));
  }

  /** A well-formed definition is read back as the filter it describes. */
  lemma ParseFilterDefinitionRoundTrip(name: seq<char>, lowerLimit: int, upperLimit: int, stepSize: int,
                                       exposure: seq<char>, emptySlotNames: seq<seq<char>>)
    requires ',' !in name && stepSize != 0
    ensures ParseFilterDefinition(FilterDefinitionText(name, lowerLimit, upperLimit, stepSize, exposure),
                                  emptySlotNames) ==
      Ok(Filter(name, if name in emptySlotNames then Some(0) else None, lowerLimit, upperLimit, stepSize,
                RangeFrom(lowerLimit, upperLimit + stepSize, stepSize)))
  {
    var l, u, st := IntText(lowerLimit), IntText(upperLimit), IntText(stepSize);
    var body := DefinitionBody(name, l, u, st, exposure);
    InnerOfBracketed(body);
    DefinitionItems(name, l, u, st, exposure);
    IntTextRoundTrip(lowerLimit);
    IntTextRoundTrip(upperLimit);
    IntTextRoundTrip(stepSize);
    var items := SplitComma(body);
    assert items[0] == name && items[1] == l && items[2] == u && items[3] == st;
    ParseFromItems(FilterDefinitionText(name, lowerLimit, upperLimit, stepSize, exposure),
                   emptySlotNames, name, lowerLimit, upperLimit, stepSize);
  }

  /** The filters read before the first bad definition, and that definition's exception. */
  datatype ParseState = ParseState(parsed: seq<Filter>, error: Option<PyError>)

  /**
   * The definitions from the i-th on, read in order after the filters parsed so far, stopping
   * at the first exception.
   */
  function ParseFrom(defs: seq<seq<char>>, i: nat, parsed: seq<Filter>, emptySlotNames: seq<seq<char>>)
    : (p: ParseState)
    requires i <= |defs|
    ensures p.error.None? ==> |p.parsed| == |parsed| + |defs| - i
    ensures |parsed| <= |p.parsed| <= |parsed| + |defs| - i
    decreases |defs| - i, 1
  {
    if i == |defs| then ParseState(parsed, None)
    else ParseTurn(defs, i, parsed, emptySlotNames)
  }

  /** One turn of that loop: the i-th definition read, then the rest. */
  function ParseTurn(defs: seq<seq<char>>, i: nat, parsed: seq<Filter>, emptySlotNames: seq<seq<char>>)
    : (p: ParseState)
    requires i < |defs|
    ensures p.error.None? ==> |p.parsed| == |parsed| + |defs| - i
    ensures |parsed| <= |p.parsed| <= |parsed| + |defs| - i
    decreases |defs| - i, 0
  {
    match ParseFilterDefinition(defs[i], emptySlotNames)
    case Err(e) => ParseState(parsed, Some(e))
    case Ok(f) => ParseFrom(defs, i + 1, parsed + [f], emptySlotNames)
  }

  /** The definitions read in order, stopping at the first exception. */
  function ParseAll(defs: seq<seq<char>>, emptySlotNames: seq<seq<char>>): ParseState {
    ParseFrom(defs, 0, [], emptySlotNames)
  }

  /** A filter is an empty slot (offset 0) exactly when its name is listed, and otherwise has no offset yet. */
  predicate IsListedSlot(f: Filter, emptySlotNames: seq<seq<char>>) {
    (f.offsetToEmptySlot == Some(0) <==> f.name in emptySlotNames) &&
    (f.offsetToEmptySlot.None? <==> f.name !in emptySlotNames)
  }

  predicate AllListed(fs: seq<Filter>, emptySlotNames: seq<seq<char>>) {
    forall i :: 0 <= i < |fs| ==> IsListedSlot(fs[i], emptySlotNames)
  }

  /**
   * Every filter read is an empty slot (offset 0) exactly when its name is listed in
   * EMPTY_SLOT_NAMES, and otherwise waits for an offset (None).
   */
  lemma ParseAllOffsets(defs: seq<seq<char>>, emptySlotNames: seq<seq<char>>)
    ensures AllListed(ParseAll(defs, emptySlotNames).parsed, emptySlotNames)
  {
    ParseFromListed(defs, 0, [], emptySlotNames);
  }

  /** Reading on from filters that are all listed correctly gives filters that are all listed correctly. */
  lemma {:induction false} ParseFromListed(defs: seq<seq<char>>, i: nat, parsed: seq<Filter>,
                                           emptySlotNames: seq<seq<char>>)
    requires i <= |defs| && AllListed(parsed, emptySlotNames)
    ensures AllListed(ParseFrom(defs, i, parsed, emptySlotNames).parsed, emptySlotNames)
    decreases |defs| - i
  {
    if i < |defs| {
      var r := ParseFilterDefinition(defs[i], emptySlotNames);
      if r.Ok? {
        var parsed2 := parsed + [r.value];
        assert forall j :: 0 <= j < |parsed| ==> parsed2[j] == parsed[j];
        ParseFromListed(defs, i + 1, parsed2, emptySlotNames);
      }
    }
  }

  /** The filter create() makes in FAKE mode from FOCUSER_NO_FTW_RANGE. */
  function FakeFilter(lowerLimit: int, upperLimit: int, stepSize: int): (r: Result<Filter, PyError>)
    ensures r.Err? <==> stepSize == 0
    ensures r.Ok? ==> r.value.name == "FAKE_FT" && r.value.offsetToEmptySlot == Some(0)
  {
    match PyRange(lowerLimit, upperLimit + stepSize, stepSize)
    case Err(e) => Err(e)
    case Ok(focFoff) => Ok(Filter("FAKE_FT", Some(0), lowerLimit, upperLimit, stepSize, focFoff))
  }

  /** The filter list of CreateFilters, which create() appends to and returns. */
  class CreateFilters {
    var filters: seq<Filter>

    constructor ()
      ensures filters == []
    {
      filters := [];
    }

    /**
     * create(): in FAKE mode one FAKE_FT filter, otherwise one filter per definition in
     * order; an exception leaves the filters appended before it in the list.
     */
    method Create(fake: bool, noFtwRange: (int, int, int), defs: seq<seq<char>>,
                  emptySlotNames: seq<seq<char>>) returns (r: Result<seq<Filter>, PyError>)
      modifies this`filters
      ensures fake ==>
        match FakeFilter(noFtwRange.0, noFtwRange.1, noFtwRange.2)
        case Err(e) => r == Err(e) && filters == old(filters)
        case Ok(f) => filters == old(filters) + [f] && r == Ok(filters)
      ensures !fake ==>
        var p := ParseAll(defs, emptySlotNames);
        filters == old(filters) + p.parsed &&
        r == if p.error.Some? then Err(p.error.value) else Ok(filters)
    {
      if fake {
        r := CreateFake(noFtwRange);
      } else {
        r := CreateFromDefinitions(defs, emptySlotNames);
      }
    }

    /** The FAKE branch: the one filter FOCUSER_NO_FTW_RANGE describes. */
    method CreateFake(noFtwRange: (int, int, int)) returns (r: Result<seq<Filter>, PyError>)
      modifies this`filters
      ensures match FakeFilter(noFtwRange.0, noFtwRange.1, noFtwRange.2)
        case Err(e) => r == Err(e) && filters == old(filters)
        case Ok(f) => filters == old(filters) + [f] && r == Ok(filters)
    {
      var ft := FakeFilter(noFtwRange.0, noFtwRange.1, noFtwRange.2);
      if ft.Err? {
        return Err(ft.error);
      }
      filters := filters + [ft.value];
      return Ok(filters);
    }

    /** The loop over FILTER DEFINITIONS. */
    method CreateFromDefinitions(defs: seq<seq<char>>, emptySlotNames: seq<seq<char>>)
      returns (r: Result<seq<Filter>, PyError>)
      modifies this`filters
      ensures var p := ParseAll(defs, emptySlotNames);
        filters == old(filters) + p.parsed &&
        r == if p.error.Some? then Err(p.error.value) else Ok(filters)
    {
      ghost var parsed: seq<Filter> := [];
      var i := 0;
      while i < |defs|
        invariant 0 <= i <= |defs|
        invariant filters == old(filters) + parsed
        invariant ParseFrom(defs, i, parsed, emptySlotNames) == ParseAll(defs, emptySlotNames)
      {
        var ft := ReadDefinition(defs, i, parsed, emptySlotNames);
        if ft.Err? {
          return Err(ft.error);
        }
        filters := filters + [ft.value];
        parsed := parsed + [ft.value];
        i := i + 1;
      }
      return Ok(filters);
    }

    /** The body of that loop: the i-th definition read. */
    static method ReadDefinition(defs: seq<seq<char>>, i: nat, ghost parsed: seq<Filter>,
                                 emptySlotNames: seq<seq<char>>) returns (ft: Result<Filter, PyError>)
      requires i < |defs|
      ensures ft.Err? ==> ParseTurn(defs, i, parsed, emptySlotNames) == ParseState(parsed, Some(ft.error))
      ensures ft.Ok? ==>
        ParseTurn(defs, i, parsed, emptySlotNames) == ParseFrom(defs, i + 1, parsed + [ft.value], emptySlotNames)
    {
      ft := ParseFilterDefinition(defs[i], emptySlotNames);
    }
  }

  // ---------------------------------------------------------------- filter wheels: values

  /** { x.name: x for x in filters }: of two filters with one name, the later one stays. */
  function FilterDict(fs: seq<Filter>): (d: map<seq<char>, Filter>)
    ensures forall n :: n in d ==> d[n].name == n && d[n] in fs
    ensures forall i :: 0 <= i < |fs| ==> fs[i].name in d
    decreases |fs|
  {
    if fs == [] then map[]
    else FilterDict(fs[..|fs| - 1])[fs[|fs| - 1].name := fs[|fs| - 1]]
  }

  /** The dictionary maps each name to the last filter of that name. */
  lemma {:induction false} FilterDictLastWins(fs: seq<Filter>, i: nat)
    requires i < |fs| && forall j :: i < j < |fs| ==> fs[j].name != fs[i].name
    ensures FilterDict(fs)[fs[i].name] == fs[i]
    decreases |fs|
  {
    if i < |fs| - 1 {
      FilterDictLastWins(fs[..|fs| - 1], i);
    }
  }

  /** Looks up every name of a wheel definition; None when one is missing. */
  function LookupAll(names: seq<seq<char>>, dict: map<seq<char>, Filter>): (r: Option<seq<Filter>>)
    decreases |names|
  {
    if names == [] then Some([])
    else
      var prev := LookupAll(names[..|names| - 1], dict);
      if prev.None? then None
      else if names[|names| - 1] !in dict then None
      else Some(prev.value + [dict[names[|names| - 1]]])
  }

  /** The lookup succeeds exactly when every name is in the dict, and then gives dict[name] for each name. */
  lemma {:induction false} LookupAllFinds(names: seq<seq<char>>, dict: map<seq<char>, Filter>)
    ensures LookupAll(names, dict).Some? <==> forall i :: 0 <= i < |names| ==> names[i] in dict
    ensures LookupAll(names, dict).Some? ==>
      |LookupAll(names, dict).value| == |names| &&
      forall i :: 0 <= i < |names| ==> LookupAll(names, dict).value[i] == dict[names[i]]
    decreases |names|
  {
    if names != [] {
      var init := names[..|names| - 1];
      LookupAllFinds(init, dict);
      assert forall i :: 0 <= i < |init| ==> init[i] == names[i];
    }
  }

  predicate IsEmptySlot(f: Filter) {
    f.offsetToEmptySlot == Some(0)
  }

  /** The empty slots of a filter list, in their order. */
  function EmptySlotsOf(fs: seq<Filter>): seq<Filter>
    decreases |fs|
  {
    if fs == [] then []
    else EmptySlotsOf(fs[..|fs| - 1]) + (if IsEmptySlot(fs[|fs| - 1]) then [fs[|fs| - 1]] else [])
  }

  /** The empty slots are empty slots, taken from the list. */
  lemma {:induction false} EmptySlotsOfSub(fs: seq<Filter>)
    ensures var es := EmptySlotsOf(fs);
      (forall i :: 0 <= i < |es| ==> IsEmptySlot(es[i])) && multiset(es) <= multiset(fs)
    decreases |fs|
  {
    if fs != [] {
      EmptySlotsOfSub(fs[..|fs| - 1]);
      assert fs == fs[..|fs| - 1] + [fs[|fs| - 1]];
    }
  }

  /** The offsets to the empty slot, the key of the sort of a wheel's filters. */
  function OffsetKeys(fs: seq<Filter>): (keys: seq<Option<int>>)
    ensures |keys| == |fs| && forall i :: 0 <= i < |fs| ==> keys[i] == fs[i].offsetToEmptySlot
  {
    seq(|fs|, i requires 0 <= i < |fs| => fs[i].offsetToEmptySlot)
  }

  /** filters.sort(key=lambda x: x.OffsetToEmptySlot, reverse=True) */
  function EmptyFirst(fs: seq<Filter>): (r: seq<Filter>)
    ensures |r| == |fs|
  {
    Pick(fs, SortOrder(OffsetKeys(fs), |fs|))
  }

  /** Every offset is 0 or None, as CreateFilters makes them. */
  predicate OffsetsZeroOrNone(fs: seq<Filter>) {
    forall i :: 0 <= i < |fs| ==> fs[i].offsetToEmptySlot == Some(0) || fs[i].offsetToEmptySlot == None
  }

  /**
   * The sort only reorders the filters and leaves them descending by offset, None last;
   * with offsets of 0 or None every empty slot comes before every other filter.
   */
  lemma EmptyFirstPermutes(fs: seq<Filter>)
    ensures multiset(EmptyFirst(fs)) == multiset(fs)
    ensures var r := EmptyFirst(fs);
      forall i, j :: 0 <= i < j < |r| ==> KeyAtLeast(r[i].offsetToEmptySlot, r[j].offsetToEmptySlot)
    ensures var r := EmptyFirst(fs);
      OffsetsZeroOrNone(fs) ==> forall i, j :: 0 <= i < j < |r| && IsEmptySlot(r[j]) ==> IsEmptySlot(r[i])
  {
    var keys := OffsetKeys(fs);
    var order := SortOrder(keys, |fs|);
    PickSortOrder(fs, keys, |fs|);
    assert fs[..|fs|] == fs;
    SortOrderSorted(keys, |fs|);
    var r := EmptyFirst(fs);
    forall i, j | 0 <= i < j < |r|
      ensures KeyAtLeast(r[i].offsetToEmptySlot, r[j].offsetToEmptySlot)
    {
      assert r[i] == fs[order[i]] && r[j] == fs[order[j]];
    }
    if OffsetsZeroOrNone(fs) {
      forall i, j | 0 <= i < j < |r| && IsEmptySlot(r[j]) ensures IsEmptySlot(r[i]) {
        assert KeyAtLeast(r[i].offsetToEmptySlot, r[j].offsetToEmptySlot);
        assert r[i] == fs[order[i]];
      }
    }
  }

  /** list.index(x): the position of the first element equal to x. */
  function IndexOf(fs: seq<Filter>, x: Filter): (k: nat)
    requires x in fs
    ensures k < |fs| && fs[k] == x && x !in fs[..k]
    decreases |fs|
  {
    if fs[0] == x then 0
    else
      var k := 1 + IndexOf(fs[1..], x);
      assert fs[..k] == [fs[0]] + fs[1..][..k - 1];
      k
  }

  /** list.remove(x): drops the first element equal to x; the others keep their order. */
  function RemoveFirst(fs: seq<Filter>, x: Filter): (r: seq<Filter>)
    requires x in fs
    ensures |r| == |fs| - 1
    decreases |fs|
  {
    if fs[0] == x then fs[1..]
    else [fs[0]] + RemoveFirst(fs[1..], x)
  }

  /** list.remove(x) is del l[l.index(x)]: the first copy goes, the others keep their order. */
  lemma {:induction false} RemoveFirstAt(fs: seq<Filter>, x: Filter)
    requires x in fs
    ensures RemoveFirst(fs, x) == fs[..IndexOf(fs, x)] + fs[IndexOf(fs, x) + 1..]
    decreases |fs|
  {
    if fs[0] != x {
      var k := IndexOf(fs[1..], x);
      RemoveFirstAt(fs[1..], x);
      assert fs[..k + 1] == [fs[0]] + fs[1..][..k];
      assert fs[k + 2..] == fs[1..][k + 1..];
    }
  }

  /** list.remove(x) takes away exactly one copy of x. */
  lemma {:induction false} RemoveFirstMultiset(fs: seq<Filter>, x: Filter)
    requires x in fs
    ensures multiset(RemoveFirst(fs, x)) == multiset(fs) - multiset{x}
    decreases |fs|
  {
    assert fs == [fs[0]] + fs[1..];
    if fs[0] != x {
      RemoveFirstMultiset(fs[1..], x);
    }
  }

  /**
   * The pairs (pattern, name) for which re.compile(pattern).match(name) succeeds; regular
   * expressions themselves are not modelled.
   */
  type MatchRelation = set<(seq<char>, seq<char>)>

  /** re.compile(nm).match(name) succeeds for one of the EMPTY_SLOT_NAMES patterns. */
  predicate AnyMatch(patterns: seq<seq<char>>, name: seq<char>, matches: MatchRelation) {
    exists i :: 0 <= i < |patterns| && (patterns[i], name) in matches
  }

  /**
   * The loop over the empty slots after the first: one whose name matches a pattern is
   * removed from the wheel's filters. With no patterns at all the match result the loop
   * tests was never bound, and Python raises NameError; removing a filter that is not there
   * raises ValueError.
   */
  function DropExtra(filters: seq<Filter>, extra: seq<Filter>, patterns: seq<seq<char>>,
                     matches: MatchRelation): (r: Result<seq<Filter>, PyError>)
    ensures r.Ok? ==> |r.value| <= |filters|
    ensures r.Err? ==> r.error == NameError || r.error == ValueError
    decreases |extra|
  {
    if extra == [] then Ok(filters)
    else if patterns == [] then Err(NameError)
    else if AnyMatch(patterns, extra[0].name, matches) then
      if extra[0] in filters then DropExtra(RemoveFirst(filters, extra[0]), extra[1..], patterns, matches)
      else Err(ValueError)
    else DropExtra(filters, extra[1..], patterns, matches)
  }

  /** The extra slots that match a pattern: the ones the loop removes. */
  function Matching(extra: seq<Filter>, patterns: seq<seq<char>>, matches: MatchRelation)
    : seq<Filter>
    decreases |extra|
  {
    if extra == [] then []
    else (if AnyMatch(patterns, extra[0].name, matches) then [extra[0]] else []) +
         Matching(extra[1..], patterns, matches)
  }

  /**
   * When the extra slots are among the filters and there is a pattern, the loop never
   * raises, and it removes exactly one copy of each matching extra slot.
   */
  lemma {:induction false} DropExtraRemovesMatching(filters: seq<Filter>, extra: seq<Filter>,
                                                    patterns: seq<seq<char>>, matches: MatchRelation)
    requires multiset(extra) <= multiset(filters) && patterns != []
    ensures DropExtra(filters, extra, patterns, matches).Ok?
    ensures multiset(DropExtra(filters, extra, patterns, matches).value) ==
      multiset(filters) - multiset(Matching(extra, patterns, matches))
    decreases |extra|
  {
    if extra != [] {
      var x, tail := extra[0], extra[1..];
      assert extra == [x] + tail;
      assert multiset(extra) == multiset{x} + multiset(tail);
      assert x in multiset(filters);
      if AnyMatch(patterns, x.name, matches) {
        var rest := RemoveFirst(filters, x);
        RemoveFirstMultiset(filters, x);
        assert multiset(tail) <= multiset(rest);
        DropExtraRemovesMatching(rest, tail, patterns, matches);
        assert multiset(Matching(extra, patterns, matches)) == multiset{x} + multiset(Matching(tail, patterns, matches));
      } else {
        assert multiset(tail) <= multiset(filters);
        DropExtraRemovesMatching(filters, tail, patterns, matches);
        assert Matching(extra, patterns, matches) == Matching(tail, patterns, matches);
      }
    }
  }

  /** Python raises from the loop only for want of a pattern, and only when there is an extra slot to test. */
  lemma DropExtraRaises(filters: seq<Filter>, extra: seq<Filter>,
                        patterns: seq<seq<char>>, matches: MatchRelation)
    requires multiset(extra) <= multiset(filters)
    ensures DropExtra(filters, extra, patterns, matches).Err? <==> patterns == [] && extra != []
    ensures DropExtra(filters, extra, patterns, matches).Err? ==>
      DropExtra(filters, extra, patterns, matches).error == NameError
  {
    if patterns != [] {
      DropExtraRemovesMatching(filters, extra, patterns, matches);
    }
  }

  lemma {:induction false} MatchingSubset(extra: seq<Filter>, patterns: seq<seq<char>>,
                                          matches: MatchRelation)
    ensures multiset(Matching(extra, patterns, matches)) <= multiset(extra)
    ensures forall f :: f in Matching(extra, patterns, matches) ==> AnyMatch(patterns, f.name, matches)
    decreases |extra|
  {
    if extra != [] {
      MatchingSubset(extra[1..], patterns, matches);
      assert extra == [extra[0]] + extra[1..];
    }
  }

  /** A filter wheel's name, its filters and the empty slots found on it. */
  datatype WheelValue = WheelValue(name: seq<char>, filters: seq<Filter>, emptySlots: seq<Filter>)

  /** The configuration CreateFilterWheels.create reads. */
  datatype WheelsConfig = WheelsConfig(
    definitions: seq<(seq<char>, seq<seq<char>>)>,  // FILTER WHEEL DEFINITIONS, in iteration order
    inUse: seq<seq<char>>,                          // FILTER WHEELS INUSE
    emptySlotNames: seq<seq<char>>,                 // EMPTY_SLOT_NAMES, also used as patterns
    minimumFocuserPositions: int,                   // MINIMUM_FOCUSER_POSITIONS
    blind: bool,
    check: bool)

  /** Every name of every wheel definition is a filter of the dict. */
  predicate AllDefined(defs: seq<(seq<char>, seq<seq<char>>)>, dict: map<seq<char>, Filter>) {
    forall i :: 0 <= i < |defs| ==> LookupAll(defs[i].1, dict).Some?
  }

  /** The wheel one definition describes: its filters looked up and sorted empty slots first. */
  function WheelOf(def: (seq<char>, seq<seq<char>>), dict: map<seq<char>, Filter>): WheelValue
    requires LookupAll(def.1, dict).Some?
  {
    WheelValue(def.0, EmptyFirst(LookupAll(def.1, dict).value), [])
  }

  /**
   * One wheel per definition; None when a definition names an unknown filter, since the
   * loop returns None at the first such name and has changed nothing observable before.
   */
  function InitialWheels(defs: seq<(seq<char>, seq<seq<char>>)>, dict: map<seq<char>, Filter>)
    : Option<seq<WheelValue>>
  {
    if AllDefined(defs, dict) then
      Some(seq(|defs|, i requires 0 <= i < |defs| && AllDefined(defs, dict) => WheelOf(defs[i], dict)))
    else None
  }

  /** The positions of the names that FILTER WHEELS INUSE lists, in order. */
  function Selected(names: seq<seq<char>>, inUse: seq<seq<char>>): (idx: seq<nat>)
    ensures |idx| <= |names| && IndicesBelow(idx, |names|)
    ensures forall i :: 0 <= i < |idx| ==> names[idx[i]] in inUse
    // every position whose name is listed is selected
    ensures forall i :: 0 <= i < |names| && names[i] in inUse ==> i in idx
    ensures forall i, j :: 0 <= i < j < |idx| ==> idx[i] < idx[j]
    decreases |names|
  {
    if names == [] then []
    else Selected(names[..|names| - 1], inUse) + (if names[|names| - 1] in inUse then [|names| - 1] else [])
  }

  function WheelNames(vs: seq<WheelValue>): (ns: seq<seq<char>>)
    ensures |ns| == |vs| && forall i :: 0 <= i < |vs| ==> ns[i] == vs[i].name
  {
    seq(|vs|, i requires 0 <= i < |vs| => vs[i].name)
  }

  /** The proxy knows every one of the names. */
  predicate AllPresent(names: seq<seq<char>>, present: set<seq<char>>) {
    forall i :: 0 <= i < |names| ==> names[i] in present
  }

  /** The wheels whose names FILTER WHEELS INUSE lists, in their order. */
  function InUse(ws: seq<WheelValue>, names: seq<seq<char>>): (r: seq<WheelValue>)
    ensures |r| <= |ws|
    ensures forall i :: 0 <= i < |r| ==> r[i].name in names
    // every wheel FILTER WHEELS INUSE names is kept
    ensures forall i :: 0 <= i < |ws| && ws[i].name in names ==> ws[i] in r
  {
    var idx := Selected(WheelNames(ws), names);
    assert forall i :: 0 <= i < |ws| && ws[i].name in names ==> i in idx && ws[i] in Pick(ws, idx) by {
      forall i | 0 <= i < |ws| && ws[i].name in names ensures i in idx && ws[i] in Pick(ws, idx) {
        assert WheelNames(ws)[i] == ws[i].name;
        var p :| 0 <= p < |idx| && idx[p] == i;
        assert Pick(ws, idx)[p] == ws[i];
      }
    }
    Pick(ws, idx)
  }

  /** Python's `a in b` on two strings: a occurs in b. */
  predicate IsSubstring(a: seq<char>, b: seq<char>) {
    exists i :: 0 <= i <= |b| && a <= b[i..]
  }

  /** A wheel whose name is part of "FAKE_FTW" is not looked for; any other must be known to the proxy. */
  predicate Reachable(name: seq<char>, present: set<seq<char>>) {
    IsSubstring(name, "FAKE_FTW") || name in present
  }

  /** One in-use wheel: collect its empty slots, then drop the extra ones that match a pattern. */
  function ProcessWheel(w: WheelValue, patterns: seq<seq<char>>, matches: MatchRelation)
    : (r: Result<WheelValue, PyError>)
    ensures r.Ok? ==> r.value.name == w.name && |r.value.filters| <= |w.filters|
    ensures r.Err? ==> r.error == NameError || r.error == ValueError
  {
    var es := w.emptySlots + EmptySlotsOf(w.filters);
    if es == [] then Ok(w)
    else
      match DropExtra(w.filters, es[1..], patterns, matches)
      case Err(e) => Err(e)
      case Ok(fs) => Ok(WheelValue(w.name, fs, es))
  }

  /** Dropping the extra empty slots never drops the first one. */
  lemma FirstSlotSurvives(filters: seq<Filter>, es: seq<Filter>, patterns: seq<seq<char>>,
                          matches: MatchRelation)
    requires es != [] && multiset(es) <= multiset(filters) && patterns != []
    ensures DropExtra(filters, es[1..], patterns, matches).Ok?
    ensures es[0] in DropExtra(filters, es[1..], patterns, matches).value
  {
    assert es == [es[0]] + es[1..];
    DropExtraRemovesMatching(filters, es[1..], patterns, matches);
    MatchingSubset(es[1..], patterns, matches);
    var m := Matching(es[1..], patterns, matches);
    var kept := DropExtra(filters, es[1..], patterns, matches).value;
    assert multiset(filters)[es[0]] >= multiset(es)[es[0]] == multiset(es[1..])[es[0]] + 1;
    assert multiset(m)[es[0]] <= multiset(es[1..])[es[0]];
    assert multiset(kept)[es[0]] > 0;
  }

  /**
   * A freshly built wheel keeps its first empty slot, loses exactly the matching extra
   * ones, and raises only NameError, only when there are extra slots and no pattern.
   */
  lemma ProcessWheelKeepsFirstSlot(w: WheelValue, patterns: seq<seq<char>>,
                                   matches: MatchRelation)
    requires w.emptySlots == []
    ensures var r := ProcessWheel(w, patterns, matches);
      var es := EmptySlotsOf(w.filters);
      (r.Err? <==> patterns == [] && |es| >= 2) &&
      (r.Err? ==> r.error == NameError) &&
      (r.Ok? ==> r.value.name == w.name && r.value.emptySlots == es &&
                 (es != [] ==> es[0] in r.value.filters))
  {
    var es := EmptySlotsOf(w.filters);
    EmptySlotsOfSub(w.filters);
    assert w.emptySlots + es == es;
    if es != [] {
      assert es == [es[0]] + es[1..];
      assert multiset(es[1..]) <= multiset(es);
      DropExtraRaises(w.filters, es[1..], patterns, matches);
      if patterns != [] {
        FirstSlotSurvives(w.filters, es, patterns, matches);
      }
    }
  }

  /** The outcome of the loop over the in-use wheels. */
  datatype Pass = PassNone | PassRaised(error: PyError) | PassDone(wheels: seq<WheelValue>, emptyCount: int)

  /**
   * The loop over the in-use wheels from position k on, having made done of the first k
   * and counted eSs empty slots on them.
   */
  function ProcessFrom(vs: seq<WheelValue>, k: nat, done: seq<WheelValue>, eSs: int, present: set<seq<char>>,
                       patterns: seq<seq<char>>, matches: MatchRelation): (p: Pass)
    requires k <= |vs|
    ensures p.PassDone? ==> |p.wheels| == |done| + |vs| - k
    ensures p.PassRaised? ==> p.error == NameError || p.error == ValueError
    decreases |vs| - k, 1
  {
    if k == |vs| then PassDone(done, eSs)
    else ProcessTurn(vs, k, done, eSs, present, patterns, matches)
  }

  /** One turn of that loop, on the k-th wheel: the proxy lookup, then its empty slots. */
  function ProcessTurn(vs: seq<WheelValue>, k: nat, done: seq<WheelValue>, eSs: int, present: set<seq<char>>,
                       patterns: seq<seq<char>>, matches: MatchRelation): (p: Pass)
    requires k < |vs|
    ensures p.PassDone? ==> |p.wheels| == |done| + |vs| - k
    ensures p.PassRaised? ==> p.error == NameError || p.error == ValueError
    decreases |vs| - k, 0
  {
    if !Reachable(vs[k].name, present) then PassNone
    else
      match ProcessWheel(vs[k], patterns, matches)
      case Err(e) => PassRaised(e)
      case Ok(w2) => ProcessFrom(vs, k + 1, done + [w2], eSs + |EmptySlotsOf(vs[k].filters)|, present, patterns, matches)
  }

  /** The loop over the in-use wheels, with its count eSs of empty slots. */
  function ProcessWheels(vs: seq<WheelValue>, present: set<seq<char>>, patterns: seq<seq<char>>,
                         matches: MatchRelation): (p: Pass)
    ensures p.PassDone? ==> |p.wheels| == |vs|
    ensures p.PassRaised? ==> p.error == NameError || p.error == ValueError
  {
    ProcessFrom(vs, 0, [], 0, present, patterns, matches)
  }

  function SeqMin(s: seq<int>): (m: int)
    requires s != []
    ensures m in s && forall i :: 0 <= i < |s| ==> m <= s[i]
  {
    if |s| == 1 then s[0]
    else
      var rest := SeqMin(s[1..]);
      assert forall i :: 1 <= i < |s| ==> s[i] == s[1..][i - 1];
      if s[0] <= rest then s[0] else rest
  }

  function SeqMax(s: seq<int>): (m: int)
    requires s != []
    ensures m in s && forall i :: 0 <= i < |s| ==> s[i] <= m
  {
    if |s| == 1 then s[0]
    else
      var rest := SeqMax(s[1..]);
      assert forall i :: 1 <= i < |s| ==> s[i] == s[1..][i - 1];
      if s[0] >= rest then s[0] else rest
  }

  /**
   * The limit check of one filter: its steps, shifted by the focuser's FOC_DEF, must lie
   * within the absolute limits; min() of no steps raises ValueError.
   */
  function FilterOutOfLimits(f: Filter, foc: Focuser): (r: Result<bool, PyError>)
    ensures r.Err? <==> f.focFoff == []
    // out of limits exactly when some step, shifted by FOC_DEF, lies outside the absolute limits
    ensures r.Ok? ==>
      (r.value <==>
        exists i :: 0 <= i < |f.focFoff| && !(foc.absLowerLimit <= foc.focDef + f.focFoff[i] <= foc.absUpperLimit))
  {
    if f.focFoff == [] then Err(ValueError)
    else
      var lo, hi := SeqMin(f.focFoff), SeqMax(f.focFoff);
      WithinLimitsIff(foc.absLowerLimit, foc.absUpperLimit, foc.focDef + lo, foc.focDef + hi);
      assert lo in f.focFoff && hi in f.focFoff;
      Ok(!WithinLimits(foc.absLowerLimit, foc.absUpperLimit, foc.focDef + lo, foc.focDef + hi))
  }

  /** The wheels whose filters are checked: the first in use, and any with more than one filter. */
  predicate CheckedWheel(vs: seq<WheelValue>, k: int)
    requires 0 <= k < |vs|
  {
    |vs[k].filters| > 1 || k == 0
  }

  /** Some filter of the wheel has no focuser steps, so min() of them raises ValueError. */
  predicate WheelHasNoSteps(v: WheelValue) {
    exists j :: 0 <= j < |v.filters| && v.filters[j].focFoff == []
  }

  /** Some filter of the wheel has steps outside the focuser's absolute limits. */
  predicate WheelOutOfLimits(v: WheelValue, foc: Focuser) {
    exists j :: 0 <= j < |v.filters| && FilterOutOfLimits(v.filters[j], foc) == Ok(true)
  }

  /**
   * The result of the limit loop: nothing is checked when blind; otherwise ValueError for a
   * checked filter with no steps, else whether a checked filter is out of limits.
   */
  function BoundsCheck(vs: seq<WheelValue>, foc: Focuser, blind: bool): (r: Result<bool, PyError>)
    ensures blind ==> r == Ok(false)
    ensures r.Err? ==> r.error == ValueError
    // passing the loop puts the steps of every checked wheel within the limits
    ensures !blind && r == Ok(false) ==>
      forall k :: 0 <= k < |vs| && CheckedWheel(vs, k) ==> StepsWithin(vs[k], foc)
  {
    if blind then Ok(false)
    else if exists k :: 0 <= k < |vs| && CheckedWheel(vs, k) && WheelHasNoSteps(vs[k]) then Err(ValueError)
    else Ok(exists k :: 0 <= k < |vs| && CheckedWheel(vs, k) && WheelOutOfLimits(vs[k], foc))
  }

  /** Some filter of the wheel has no more steps than MINIMUM_FOCUSER_POSITIONS. */
  predicate WheelBelowMinimum(v: WheelValue, minimum: int) {
    exists j :: 0 <= j < |v.filters| && |v.filters[j].focFoff| <= minimum
  }

  predicate AnyBelowMinimum(vs: seq<WheelValue>, minimum: int) {
    exists k :: 0 <= k < |vs| && WheelBelowMinimum(vs[k], minimum)
  }

  /** The number of empty slots on the given wheels: the count eSs. */
  function TotalEmptySlots(vs: seq<WheelValue>): nat
    decreases |vs|
  {
    if vs == [] then 0
    else TotalEmptySlots(vs[..|vs| - 1]) + |EmptySlotsOf(vs[|vs| - 1].filters)|
  }

  /** d is what the empty-slot loop makes of the fresh wheel v. */
  predicate ProcessedFrom(d: WheelValue, v: WheelValue, present: set<seq<char>>) {
    d.name == v.name && Reachable(v.name, present) &&
    d.emptySlots == EmptySlotsOf(v.filters) &&
    (d.emptySlots != [] ==> d.emptySlots[0] in d.filters)
  }

  /** ProcessFrom keeps what the loop has made of the first k wheels and extends it to all. */
  lemma {:induction false} ProcessFromFacts(vs: seq<WheelValue>, k: nat, done: seq<WheelValue>, eSs: int,
                                            present: set<seq<char>>, patterns: seq<seq<char>>,
                                            matches: MatchRelation)
    requires k <= |vs| && |done| == k && eSs == TotalEmptySlots(vs[..k])
    requires forall j :: 0 <= j < |vs| ==> vs[j].emptySlots == []
    requires forall j :: 0 <= j < k ==> ProcessedFrom(done[j], vs[j], present)
    ensures var p := ProcessFrom(vs, k, done, eSs, present, patterns, matches);
      p.PassDone? ==>
        p.emptyCount == TotalEmptySlots(vs) &&
        forall j :: 0 <= j < |vs| ==> ProcessedFrom(p.wheels[j], vs[j], present)
    decreases |vs| - k
  {
    if k == |vs| {
      assert vs[..k] == vs;
    } else if ProcessTurn(vs, k, done, eSs, present, patterns, matches).PassDone? {
      var w2, n := ProcessTurnAdvances(vs, k, done, eSs, present, patterns, matches);
      ProcessFromFacts(vs, k + 1, done + [w2], eSs + n, present, patterns, matches);
    }
  }

  /** A turn that does not end the loop adds the wheel ProcessWheel made and counts its empty slots. */
  lemma ProcessTurnAdvances(vs: seq<WheelValue>, k: nat, done: seq<WheelValue>, eSs: int,
                            present: set<seq<char>>, patterns: seq<seq<char>>, matches: MatchRelation)
    returns (w2: WheelValue, n: int)
    requires k < |vs| && ProcessTurn(vs, k, done, eSs, present, patterns, matches).PassDone?
    requires |done| == k && eSs == TotalEmptySlots(vs[..k]) && vs[k].emptySlots == []
    requires forall j :: 0 <= j < k ==> ProcessedFrom(done[j], vs[j], present)
    ensures ProcessTurn(vs, k, done, eSs, present, patterns, matches) ==
      ProcessFrom(vs, k + 1, done + [w2], eSs + n, present, patterns, matches)
    ensures eSs + n == TotalEmptySlots(vs[..k + 1])
    ensures forall j :: 0 <= j < k + 1 ==> ProcessedFrom((done + [w2])[j], vs[j], present)
  {
    w2 := ProcessWheel(vs[k], patterns, matches).value;
    n := |EmptySlotsOf(vs[k].filters)|;
    ProcessedNext(vs, k, done, eSs, w2, present, patterns, matches);
  }

  /** The facts ProcessFromFacts keeps, one wheel further on. */
  lemma ProcessedNext(vs: seq<WheelValue>, k: nat, done: seq<WheelValue>, eSs: int, w2: WheelValue,
                      present: set<seq<char>>, patterns: seq<seq<char>>, matches: MatchRelation)
    requires k < |vs| && |done| == k && eSs == TotalEmptySlots(vs[..k]) && vs[k].emptySlots == []
    requires Reachable(vs[k].name, present) && ProcessWheel(vs[k], patterns, matches) == Ok(w2)
    requires forall j :: 0 <= j < k ==> ProcessedFrom(done[j], vs[j], present)
    ensures eSs + |EmptySlotsOf(vs[k].filters)| == TotalEmptySlots(vs[..k + 1])
    ensures forall j :: 0 <= j < k + 1 ==> ProcessedFrom((done + [w2])[j], vs[j], present)
  {
    ProcessWheelKeepsFirstSlot(vs[k], patterns, matches);
    assert vs[..k + 1][..k] == vs[..k];
    var done2 := done + [w2];
    assert forall j :: 0 <= j < k ==> done2[j] == done[j];
  }

  /** What the loop over the in-use wheels makes of each wheel, and its count eSs. */
  lemma ProcessWheelsFacts(vs: seq<WheelValue>, present: set<seq<char>>,
                           patterns: seq<seq<char>>, matches: MatchRelation)
    requires forall k :: 0 <= k < |vs| ==> vs[k].emptySlots == []
    ensures var p := ProcessWheels(vs, present, patterns, matches);
      p.PassDone? ==>
        p.emptyCount == TotalEmptySlots(vs) &&
        forall k :: 0 <= k < |vs| ==> ProcessedFrom(p.wheels[k], vs[k], present)
  {
    ProcessFromFacts(vs, 0, [], 0, present, patterns, matches);
  }

  // ---------------------------------------------------------------- CreateFilterWheels.create

  /** What create returns: None, False, an exception, or the in-use wheels. */
  datatype WheelsResult = WheelsNone | WheelsFalse | WheelsRaised(error: PyError) | WheelsCreated(wheels: seq<WheelValue>)

  /** create(), from the filter dictionary to the sorted in-use wheels. */
  function CreateWheels(filters: seq<Filter>, foc: Option<Focuser>, cfg: WheelsConfig,
                        present: set<seq<char>>, matches: MatchRelation): (r: WheelsResult)
    // wheels come back only with a focuser, and never more than were defined
    ensures r.WheelsCreated? ==> foc.Some? && |r.wheels| <= |cfg.definitions|
    // IndexError is raised only while the filter definitions are read, before this create
    ensures r.WheelsRaised? ==> r.error != IndexError
  {
    match InitialWheels(cfg.definitions, FilterDict(filters))
    case None => WheelsNone
    case Some(all) =>
      match ProcessWheels(InUse(all, cfg.inUse), present, cfg.emptySlotNames, matches)
      case PassNone => WheelsNone
      case PassRaised(e) => WheelsRaised(e)
      case PassDone(done, eSs) => FinishWheels(all, done, eSs, foc, cfg, present)
  }

  /** create() after the empty-slot loop: the count, the limits, the minimum, the device check, the sort. */
  function FinishWheels(all: seq<WheelValue>, done: seq<WheelValue>, eSs: int, foc: Option<Focuser>,
                        cfg: WheelsConfig, present: set<seq<char>>): WheelsResult
  {
    if eSs < |done| then WheelsNone
    else if foc.None? then WheelsRaised(AttributeError)  // self.foc.name on None
    else CheckedWheels(all, done, foc.value, cfg, present)
  }

  /** The limit check, the minimum check, the device check and the sort. */
  function CheckedWheels(all: seq<WheelValue>, done: seq<WheelValue>, focuser: Focuser,
                         cfg: WheelsConfig, present: set<seq<char>>): WheelsResult
  {
    match BoundsCheck(done, focuser, cfg.blind)
    case Err(e) => WheelsRaised(e)
    case Ok(true) => WheelsFalse
    case Ok(false) =>
      if AnyBelowMinimum(done, cfg.minimumFocuserPositions) then WheelsNone
      else ReturnedWheels(all, done, cfg.check, present)
  }

  /** The device check over all wheels, then the in-use wheels sorted by their number of filters. */
  function ReturnedWheels(all: seq<WheelValue>, done: seq<WheelValue>, check: bool,
                          present: set<seq<char>>): WheelsResult
  {
    if check && !AllPresent(WheelNames(all), present) then
      WheelsRaised(AttributeError)  // FilterWheel.check logs through a logger it never set
    else WheelsCreated(Pick(done, SortOrder(FilterCountKeys(done), |done|)))
  }

  /** A wheel definition naming a filter that is not defined makes create return None. */
  lemma UnknownFilterGivesNone(filters: seq<Filter>, foc: Option<Focuser>, cfg: WheelsConfig,
                               present: set<seq<char>>, matches: MatchRelation, d: nat, n: nat)
    requires d < |cfg.definitions| && n < |cfg.definitions[d].1|
    requires forall i :: 0 <= i < |filters| ==> filters[i].name != cfg.definitions[d].1[n]
    ensures CreateWheels(filters, foc, cfg, present, matches) == WheelsNone
  {
    InitialWheelsNone(cfg.definitions, FilterDict(filters), d, n);
  }

  lemma InitialWheelsNone(defs: seq<(seq<char>, seq<seq<char>>)>, dict: map<seq<char>, Filter>, d: nat, n: nat)
    requires d < |defs| && n < |defs[d].1| && defs[d].1[n] !in dict
    ensures InitialWheels(defs, dict).None?
  {
    LookupAllFinds(defs[d].1, dict);
  }

  /** The steps of create that led to a list of wheels. */
  lemma CreatedSteps(filters: seq<Filter>, foc: Option<Focuser>, cfg: WheelsConfig,
                     present: set<seq<char>>, matches: MatchRelation)
    requires CreateWheels(filters, foc, cfg, present, matches).WheelsCreated?
    ensures InitialWheels(cfg.definitions, FilterDict(filters)).Some?
    ensures var all := InitialWheels(cfg.definitions, FilterDict(filters)).value;
      var p := ProcessWheels(InUse(all, cfg.inUse), present, cfg.emptySlotNames, matches);
      p.PassDone? && p.emptyCount >= |p.wheels| && foc.Some? &&
      BoundsCheck(p.wheels, foc.value, cfg.blind) == Ok(false) &&
      !AnyBelowMinimum(p.wheels, cfg.minimumFocuserPositions) &&
      CreateWheels(filters, foc, cfg, present, matches).wheels ==
        Pick(p.wheels, SortOrder(FilterCountKeys(p.wheels), |p.wheels|))
  {
  }

  /** Selecting the in-use wheels keeps them fresh. */
  lemma InUseFresh(all: seq<WheelValue>, names: seq<seq<char>>)
    requires forall k :: 0 <= k < |all| ==> all[k].emptySlots == []
    ensures forall k :: 0 <= k < |InUse(all, names)| ==> InUse(all, names)[k].emptySlots == []
  {
    var idx := Selected(WheelNames(all), names);
    forall k | 0 <= k < |InUse(all, names)| ensures InUse(all, names)[k].emptySlots == [] {
      assert InUse(all, names)[k] == all[idx[k]];
    }
  }

  /**
   * The wheels create returns are the in-use wheels, reordered by number of filters,
   * descending, and there are at least as many empty slots among them as wheels.
   */
  lemma CreatedSorted(filters: seq<Filter>, foc: Option<Focuser>, cfg: WheelsConfig,
                      present: set<seq<char>>, matches: MatchRelation)
    requires CreateWheels(filters, foc, cfg, present, matches).WheelsCreated?
    ensures var all := InitialWheels(cfg.definitions, FilterDict(filters)).value;
      var inUse := InUse(all, cfg.inUse);
      var ws := CreateWheels(filters, foc, cfg, present, matches).wheels;
      |ws| == |inUse| && TotalEmptySlots(inUse) >= |inUse| &&
      forall i, j :: 0 <= i < j < |ws| ==> |ws[i].filters| >= |ws[j].filters|
  {
    CreatedSteps(filters, foc, cfg, present, matches);
    var all := InitialWheels(cfg.definitions, FilterDict(filters)).value;
    var inUse := InUse(all, cfg.inUse);
    InUseFresh(all, cfg.inUse);
    ProcessWheelsFacts(inUse, present, cfg.emptySlotNames, matches);
    SortByFilterCountDescends(ProcessWheels(inUse, present, cfg.emptySlotNames, matches).wheels);
  }

  /** Sorting by the number of filters, reverse=True, puts the wheels with more filters first. */
  lemma SortByFilterCountDescends(vs: seq<WheelValue>)
    ensures var ws := Pick(vs, SortOrder(FilterCountKeys(vs), |vs|));
      forall i, j :: 0 <= i < j < |ws| ==> |ws[i].filters| >= |ws[j].filters|
  {
    var keys := FilterCountKeys(vs);
    var order := SortOrder(keys, |vs|);
    SortOrderSorted(keys, |vs|);
    var ws := Pick(vs, order);
    forall i, j | 0 <= i < j < |ws| ensures |ws[i].filters| >= |ws[j].filters| {
      assert KeyAtLeast(keys[order[i]], keys[order[j]]);
    }
  }

  /**
   * Each wheel create returns is in use, is known to the proxy or named after FAKE_FTW, and
   * keeps its first empty slot.
   */
  lemma CreatedWheelsKept(filters: seq<Filter>, foc: Option<Focuser>, cfg: WheelsConfig,
                          present: set<seq<char>>, matches: MatchRelation)
    requires CreateWheels(filters, foc, cfg, present, matches).WheelsCreated?
    ensures var ws := CreateWheels(filters, foc, cfg, present, matches).wheels;
      forall i :: 0 <= i < |ws| ==>
         ws[i].name in cfg.inUse && Reachable(ws[i].name, present) &&
         (ws[i].emptySlots != [] ==> ws[i].emptySlots[0] in ws[i].filters)
  {
    CreatedSteps(filters, foc, cfg, present, matches);
    var all := InitialWheels(cfg.definitions, FilterDict(filters)).value;
    var inUse := InUse(all, cfg.inUse);
    InUseFresh(all, cfg.inUse);
    ProcessWheelsFacts(inUse, present, cfg.emptySlotNames, matches);
    var done := ProcessWheels(inUse, present, cfg.emptySlotNames, matches).wheels;
    var order := SortOrder(FilterCountKeys(done), |done|);
    var ws := Pick(done, order);
    forall i | 0 <= i < |ws|
      ensures ws[i].name in cfg.inUse && Reachable(ws[i].name, present)
      ensures ws[i].emptySlots != [] ==> ws[i].emptySlots[0] in ws[i].filters
    {
      assert ws[i] == done[order[i]];
      assert ProcessedFrom(done[order[i]], inUse[order[i]], present);
    }
  }

  /** The steps of every filter of the wheel, shifted by FOC_DEF, lie within the focuser's absolute limits. */
  predicate StepsWithin(v: WheelValue, foc: Focuser) {
    forall j :: 0 <= j < |v.filters| ==>
      forall s :: 0 <= s < |v.filters[j].focFoff| ==>
        foc.absLowerLimit <= foc.focDef + v.filters[j].focFoff[s] <= foc.absUpperLimit
  }

  /**
   * Every filter of the wheel has more steps than the minimum and, unless blind, when the
   * wheel has more than one filter, its steps lie within the limits.
   */
  predicate FiltersWithin(v: WheelValue, foc: Focuser, minimum: int, blind: bool) {
    (forall j :: 0 <= j < |v.filters| ==> |v.filters[j].focFoff| > minimum) &&
    (!blind && |v.filters| > 1 ==> StepsWithin(v, foc))
  }

  /**
   * Wheels that pass the limit loop and the minimum loop satisfy FiltersWithin, and unless
   * blind every wheel the loop checks, the first in use among them, keeps its steps within
   * the limits.
   */
  lemma PassedChecksWithin(vs: seq<WheelValue>, foc: Focuser, minimum: int, blind: bool, k: nat)
    requires BoundsCheck(vs, foc, blind) == Ok(false) && !AnyBelowMinimum(vs, minimum)
    requires k < |vs|
    ensures FiltersWithin(vs[k], foc, minimum, blind)
    ensures !blind && CheckedWheel(vs, k) ==> StepsWithin(vs[k], foc)
  {
    assert !WheelBelowMinimum(vs[k], minimum);
    if !blind && CheckedWheel(vs, k) {
      assert CheckedWheel(vs, k);
      assert !WheelHasNoSteps(vs[k]) && !WheelOutOfLimits(vs[k], foc);
      forall j | 0 <= j < |vs[k].filters| ensures FilterOutOfLimits(vs[k].filters[j], foc) == Ok(false) {
      }
    }
  }

  /** Every wheel create returns satisfies FiltersWithin for the focuser it was given. */
  lemma CreatedWithinLimits(filters: seq<Filter>, foc: Option<Focuser>, cfg: WheelsConfig,
                            present: set<seq<char>>, matches: MatchRelation)
    requires CreateWheels(filters, foc, cfg, present, matches).WheelsCreated?
    ensures foc.Some?
    ensures var ws := CreateWheels(filters, foc, cfg, present, matches).wheels;
      forall i :: 0 <= i < |ws| ==> FiltersWithin(ws[i], foc.value, cfg.minimumFocuserPositions, cfg.blind)
  {
    CreatedSteps(filters, foc, cfg, present, matches);
    var all := InitialWheels(cfg.definitions, FilterDict(filters)).value;
    var done := ProcessWheels(InUse(all, cfg.inUse), present, cfg.emptySlotNames, matches).wheels;
    var order := SortOrder(FilterCountKeys(done), |done|);
    var ws := Pick(done, order);
    forall i | 0 <= i < |ws| ensures FiltersWithin(ws[i], foc.value, cfg.minimumFocuserPositions, cfg.blind) {
      PassedChecksWithin(done, foc.value, cfg.minimumFocuserPositions, cfg.blind, order[i]);
    }
  }

  // ---------------------------------------------------------------- Python's list.sort(key, reverse=True)

  /** Python 2 orders None below every integer; reverse=True sorts by this, descending. */
  predicate KeyAtLeast(a: Option<int>, b: Option<int>) {
    b.None? || (a.Some? && a.value >= b.value)
  }

  predicate IndicesBelow(order: seq<nat>, n: int) {
    forall i :: 0 <= i < |order| ==> order[i] < n
  }

  /**
   * Inserts position x after every position whose key is at least x's, so that among
   * equal keys the earlier position stays first.
   */
  function InsertByKey(x: nat, order: seq<nat>, keys: seq<Option<int>>): (r: seq<nat>)
    requires x < |keys| && IndicesBelow(order, |keys|)
    ensures |r| == |order| + 1 && IndicesBelow(r, |keys|)
    decreases |order|
  {
    if order == [] then [x]
    else if KeyAtLeast(keys[order[0]], keys[x]) then
      var rest := InsertByKey(x, order[1..], keys);
      assert forall i :: 1 <= i < |rest| + 1 ==> ([order[0]] + rest)[i] == rest[i - 1];
      [order[0]] + rest
    else [x] + order
  }

  /** Position p belongs after position h in the stable descending order. */
  predicate RanksAfter(keys: seq<Option<int>>, h: nat, p: nat)
    requires h < |keys| && p < |keys|
  {
    KeyAtLeast(keys[h], keys[p]) && (keys[h] == keys[p] ==> h < p)
  }

  /** When x and every position of order rank after h, so does every position returned. */
  lemma {:induction false} InsertByKeyAfter(x: nat, order: seq<nat>, keys: seq<Option<int>>, h: nat)
    requires x < |keys| && IndicesBelow(order, |keys|) && h < |keys|
    requires RanksAfter(keys, h, x) && forall i :: 0 <= i < |order| ==> RanksAfter(keys, h, order[i])
    ensures forall i :: 0 <= i < |InsertByKey(x, order, keys)| ==> RanksAfter(keys, h, InsertByKey(x, order, keys)[i])
    decreases |order|
  {
    if order != [] && KeyAtLeast(keys[order[0]], keys[x]) {
      var rest := InsertByKey(x, order[1..], keys);
      assert forall i :: 0 <= i < |order[1..]| ==> order[1..][i] == order[i + 1];
      InsertByKeyAfter(x, order[1..], keys, h);
      var r := [order[0]] + rest;
      assert InsertByKey(x, order, keys) == r;
      assert forall i :: 1 <= i < |r| ==> r[i] == rest[i - 1];
    } else if order != [] {
      var r := [x] + order;
      assert InsertByKey(x, order, keys) == r;
      assert forall i :: 1 <= i < |r| ==> r[i] == order[i - 1];
    }
  }

  /** A bound on x and on the positions of order bounds the result. */
  lemma {:induction false} InsertByKeyBelow(x: nat, order: seq<nat>, keys: seq<Option<int>>, b: int)
    requires x < |keys| && IndicesBelow(order, |keys|)
    requires x < b && IndicesBelow(order, b)
    ensures IndicesBelow(InsertByKey(x, order, keys), b)
    decreases |order|
  {
    if order != [] && KeyAtLeast(keys[order[0]], keys[x]) {
      var rest := InsertByKey(x, order[1..], keys);
      InsertByKeyBelow(x, order[1..], keys, b);
      assert forall i :: 1 <= i < |rest| + 1 ==> ([order[0]] + rest)[i] == rest[i - 1];
    }
  }

  /** The stable descending sort of the first n keys, as the list of their positions. */
  function SortOrder(keys: seq<Option<int>>, n: nat): (order: seq<nat>)
    requires n <= |keys|
    ensures |order| == n && IndicesBelow(order, n)
  {
    if n == 0 then []
    else
      var prev := SortOrder(keys, n - 1);
      InsertByKeyBelow(n - 1, prev, keys, n);
      InsertByKey(n - 1, prev, keys)
  }

  /** Descending by key, and stable: of two positions with equal keys the earlier comes first. */
  predicate SortedStable(order: seq<nat>, keys: seq<Option<int>>)
    requires IndicesBelow(order, |keys|)
  {
    forall i, j :: 0 <= i < j < |order| ==>
      KeyAtLeast(keys[order[i]], keys[order[j]]) &&
      (keys[order[i]] == keys[order[j]] ==> order[i] < order[j])
  }

  /** Inserting a position larger than all of a sorted order keeps it sorted and stable. */
  lemma {:induction false} InsertByKeySorted(x: nat, order: seq<nat>, keys: seq<Option<int>>)
    requires x < |keys| && IndicesBelow(order, |keys|)
    requires SortedStable(order, keys)
    requires forall i :: 0 <= i < |order| ==> order[i] < x
    ensures SortedStable(InsertByKey(x, order, keys), keys)
    decreases |order|
  {
    if order != [] {
      var r := InsertByKey(x, order, keys);
      if KeyAtLeast(keys[order[0]], keys[x]) {
        var rest := InsertByKey(x, order[1..], keys);
        InsertByKeySorted(x, order[1..], keys);
        assert r == [order[0]] + rest;
        assert forall i :: 0 <= i < |order[1..]| ==> order[1..][i] == order[i + 1];
        InsertByKeyAfter(x, order[1..], keys, order[0]);
        forall j | 1 <= j < |r|
          ensures KeyAtLeast(keys[r[0]], keys[r[j]]) && (keys[r[0]] == keys[r[j]] ==> r[0] < r[j])
        {
          assert r[j] == rest[j - 1] && RanksAfter(keys, order[0], rest[j - 1]);
        }
      } else {
        assert r == [x] + order;
        forall j | 1 <= j < |r| ensures !KeyAtLeast(keys[r[j]], keys[r[0]]) {
          assert r[j] == order[j - 1];
        }
      }
    }
  }

  /** The positions come out descending by key, and stable. */
  lemma {:induction false} SortOrderSorted(keys: seq<Option<int>>, n: nat)
    requires n <= |keys|
    ensures SortedStable(SortOrder(keys, n), keys)
  {
    if n > 0 {
      var prev := SortOrder(keys, n - 1);
      SortOrderSorted(keys, n - 1);
      InsertByKeySorted(n - 1, prev, keys);
    }
  }

  /** The elements of xs at the given positions. */
  function Pick<T>(xs: seq<T>, order: seq<nat>): (r: seq<T>)
    requires IndicesBelow(order, |xs|)
    ensures |r| == |order| && forall i :: 0 <= i < |order| ==> r[i] == xs[order[i]]
  {
    seq(|order|, i requires 0 <= i < |order| => xs[order[i]])
  }

  lemma PickCons<T>(xs: seq<T>, a: nat, rest: seq<nat>)
    requires a < |xs| && IndicesBelow(rest, |xs|)
    ensures IndicesBelow([a] + rest, |xs|)
    ensures Pick(xs, [a] + rest) == [xs[a]] + Pick(xs, rest)
  {
    assert forall i :: 1 <= i < |rest| + 1 ==> ([a] + rest)[i] == rest[i - 1];
  }

  lemma {:induction false} PickInsert<T>(xs: seq<T>, x: nat, order: seq<nat>, keys: seq<Option<int>>)
    requires |keys| == |xs| && x < |xs| && IndicesBelow(order, |xs|)
    ensures multiset(Pick(xs, InsertByKey(x, order, keys))) == multiset(Pick(xs, order)) + multiset{xs[x]}
    decreases |order|
  {
    if order != [] && KeyAtLeast(keys[order[0]], keys[x]) {
      var rest := InsertByKey(x, order[1..], keys);
      assert InsertByKey(x, order, keys) == [order[0]] + rest;
      PickInsert(xs, x, order[1..], keys);
      PickCons(xs, order[0], rest);
      assert order == [order[0]] + order[1..];
      PickCons(xs, order[0], order[1..]);
      calc {
        multiset(Pick(xs, [order[0]] + rest));
        multiset([xs[order[0]]]) + multiset(Pick(xs, rest));
        multiset([xs[order[0]]]) + multiset(Pick(xs, order[1..])) + multiset{xs[x]};
        multiset(Pick(xs, order)) + multiset{xs[x]};
      }
    } else {
      assert InsertByKey(x, order, keys) == [x] + order;
      PickCons(xs, x, order);
    }
  }

  /** Sorting the first n elements only reorders them. */
  lemma {:induction false} PickSortOrder<T>(xs: seq<T>, keys: seq<Option<int>>, n: nat)
    requires |keys| == |xs| && n <= |xs|
    ensures multiset(Pick(xs, SortOrder(keys, n))) == multiset(xs[..n])
  {
    if n > 0 {
      PickSortOrder(xs, keys, n - 1);
      PickInsert(xs, n - 1, SortOrder(keys, n - 1), keys);
      assert xs[..n] == xs[..n - 1] + [xs[n - 1]];
    }
  }

  /** The number of filters of each wheel, the key of the final sort. */
  function FilterCountKeys(vs: seq<WheelValue>): (keys: seq<Option<int>>)
    ensures |keys| == |vs| && forall i :: 0 <= i < |vs| ==> keys[i] == Some(|vs[i].filters|)
  {
    seq(|vs|, i requires 0 <= i < |vs| => Some(|vs[i].filters|))
  }

  // ---------------------------------------------------------------- the objects create works on

  /** A filter wheel; create records its empty slots and removes extra ones from its filters. */
  class FilterWheel {
    const name: seq<char>
    var filters: seq<Filter>
    var emptySlots: seq<Filter>  // None until the first append in Python; both are false as conditions

    constructor (name: seq<char>, filters: seq<Filter>)
      ensures this.name == name && this.filters == filters && emptySlots == []
    {
      this.name := name;
      this.filters := filters;
      emptySlots := [];
    }

    function Value(): WheelValue
      reads this
    {
      WheelValue(name, filters, emptySlots)
    }

    /**
     * check(proxy): True when the proxy knows the device; otherwise its error branch logs
     * through self.logger, which FilterWheel never sets, and raises AttributeError.
     */
    method Check(present: set<seq<char>>) returns (r: Result<bool, PyError>)
      ensures r.Ok? <==> name in present
      ensures r.Ok? ==> r.value
      ensures r.Err? ==> r.error == AttributeError
    {
      if name in present {
        return Ok(true);
      }
      return Err(AttributeError);
    }
  }

  /** The values the wheels hold, in order. */
  function Values(ws: seq<FilterWheel>): (vs: seq<WheelValue>)
    reads set w | w in ws
    ensures |vs| == |ws| && forall i :: 0 <= i < |ws| ==> vs[i] == ws[i].Value()
    decreases |ws|
  {
    if ws == [] then [] else Values(ws[..|ws| - 1]) + [ws[|ws| - 1].Value()]
  }

  /** The names of the wheels; a wheel's name never changes. */
  function Names(ws: seq<FilterWheel>): (ns: seq<seq<char>>)
    ensures |ns| == |ws| && forall i :: 0 <= i < |ws| ==> ns[i] == ws[i].name
  {
    seq(|ws|, i requires 0 <= i < |ws| => ws[i].name)
  }

  /** Picking wheels picks their values. */
  lemma PickValues(ws: seq<FilterWheel>, idx: seq<nat>)
    requires IndicesBelow(idx, |ws|)
    ensures Values(Pick(ws, idx)) == Pick(Values(ws), idx)
  {
    var picked := Pick(ws, idx);
    forall i | 0 <= i < |idx| ensures Values(picked)[i] == Pick(Values(ws), idx)[i] {
      assert picked[i] == ws[idx[i]];
    }
  }

  lemma DistinctAppend(ws: seq<FilterWheel>, w: FilterWheel)
    requires Distinct(ws) && w !in ws
    ensures Distinct(ws + [w])
  {
  }

  lemma ValuesPointwise(ws: seq<FilterWheel>, vs: seq<WheelValue>)
    requires |ws| == |vs| && forall j :: 0 <= j < |ws| ==> ws[j].Value() == vs[j]
    ensures Values(ws) == vs
  {
  }

  lemma NamesOfValues(ws: seq<FilterWheel>)
    ensures Names(ws) == WheelNames(Values(ws))
  {
    assert forall i :: 0 <= i < |ws| ==> Names(ws)[i] == WheelNames(Values(ws))[i];
  }

  /** Picking increasing positions of distinct wheels gives distinct wheels. */
  lemma PickDistinct(ws: seq<FilterWheel>, idx: seq<nat>)
    requires IndicesBelow(idx, |ws|)
    requires Distinct(ws) && forall i, j :: 0 <= i < j < |idx| ==> idx[i] < idx[j]
    ensures Distinct(Pick(ws, idx))
  {
    var picked := Pick(ws, idx);
    forall i, j | 0 <= i < j < |idx| ensures picked[i] != picked[j] {
      assert idx[i] < idx[j];
    }
  }

  predicate Distinct(ws: seq<FilterWheel>) {
    forall i, j :: 0 <= i < j < |ws| ==> ws[i] != ws[j]
  }

  /** How create ends: None, False, an exception, or the list of in-use wheels. */
  datatype WheelsOutcome = OutNone | OutFalse | OutRaised(error: PyError) | OutCreated(wheels: seq<FilterWheel>)

  /** The value of an outcome, read from the wheels it returns. */
  function Observed(r: WheelsOutcome): WheelsResult
    reads if r.OutCreated? then set w | w in r.wheels else {}
  {
    match r
    case OutNone => WheelsNone
    case OutFalse => WheelsFalse
    case OutRaised(e) => WheelsRaised(e)
    case OutCreated(ws) => WheelsCreated(Values(ws))
  }

  /** How the loop over the in-use wheels ends. */
  datatype LoopExit = Completed | ReturnedNone | Raised(error: PyError)

  class CreateFilterWheels {
    const filters: seq<Filter>
    const foc: Option<Focuser>
    const cfg: WheelsConfig

    constructor (filters: seq<Filter>, foc: Option<Focuser>, cfg: WheelsConfig)
      ensures this.filters == filters && this.foc == foc && this.cfg == cfg
    {
      this.filters := filters;
      this.foc := foc;
      this.cfg := cfg;
    }

    /** The filters of one wheel definition, looked up by name; None when one is missing. */
    method LookupFilters(ftds: seq<seq<char>>, filterDict: map<seq<char>, Filter>) returns (r: Option<seq<Filter>>)
      ensures r == LookupAll(ftds, filterDict)
    {
      var fs: seq<Filter> := [];
      var i := 0;
      while i < |ftds|
        invariant 0 <= i <= |ftds|
        invariant LookupAll(ftds[..i], filterDict) == Some(fs)
      {
        assert ftds[..i + 1][..i] == ftds[..i];
        if ftds[i] !in filterDict {
          LookupAllStops(ftds, filterDict, i + 1);
          return None;
        }
        fs := fs + [filterDict[ftds[i]]];
        i := i + 1;
      }
      assert ftds[..i] == ftds;
      return Some(fs);
    }

    /**
     * create(): the wheels of FILTER WHEEL DEFINITIONS, of which those in use get their
     * empty slots sorted out and are checked against the focuser, then returned sorted by
     * their number of filters, descending.
     */
    method Create(present: set<seq<char>>, matches: MatchRelation) returns (r: WheelsOutcome)
      ensures Observed(r) == CreateWheels(filters, foc, cfg, present, matches)
      ensures r.OutCreated? ==> forall w :: w in r.wheels ==> fresh(w)
    {
      var filterDict := FilterDict(filters);
      var built := BuildWheels(cfg.definitions, filterDict);
      if built.None? {
        return OutNone;
      }
      var filterWheels := built.value;
      assert InitialWheels(cfg.definitions, FilterDict(filters)) == Some(Values(filterWheels));
      r := SelectAndProcess(filterWheels, Values(filterWheels), present, matches);
    }

    /** create() from the selection of the wheels in use on. */
    method SelectAndProcess(filterWheels: seq<FilterWheel>, ghost all: seq<WheelValue>,
                            present: set<seq<char>>, matches: MatchRelation) returns (r: WheelsOutcome)
      requires Distinct(filterWheels) && Values(filterWheels) == all
      modifies set w | w in filterWheels
      ensures Observed(r) == match ProcessWheels(InUse(all, cfg.inUse), present, cfg.emptySlotNames, matches)
        case PassNone => WheelsNone
        case PassRaised(e) => WheelsRaised(e)
        case PassDone(done, eSs) => FinishWheels(all, done, eSs, foc, cfg, present)
      ensures r.OutCreated? ==> forall w :: w in r.wheels ==> w in filterWheels
    {
      var filterWheelsInUse := SelectInUse(filterWheels, cfg.inUse);
      ghost var idx := Selected(Names(filterWheels), cfg.inUse);
      PickValues(filterWheels, idx);
      NamesOfValues(filterWheels);
      PickDistinct(filterWheels, idx);
      assert forall w :: w in filterWheelsInUse ==> w in filterWheels;
      r := ProcessAndFinish(filterWheels, all, filterWheelsInUse, present, matches);
    }

    /** create() from the loop over the in-use wheels on. */
    method ProcessAndFinish(filterWheels: seq<FilterWheel>, ghost all: seq<WheelValue>, us: seq<FilterWheel>,
                            present: set<seq<char>>, matches: MatchRelation) returns (r: WheelsOutcome)
      requires Names(filterWheels) == WheelNames(all)
      requires Distinct(us) && |us| == |InUse(all, cfg.inUse)|
      requires forall j :: 0 <= j < |us| ==> us[j].Value() == InUse(all, cfg.inUse)[j]
      modifies set w | w in us
      ensures Observed(r) == match ProcessWheels(InUse(all, cfg.inUse), present, cfg.emptySlotNames, matches)
        case PassNone => WheelsNone
        case PassRaised(e) => WheelsRaised(e)
        case PassDone(done, eSs) => FinishWheels(all, done, eSs, foc, cfg, present)
      ensures r.OutCreated? ==> forall w :: w in r.wheels ==> w in us
    {
      ghost var vs0 := InUse(all, cfg.inUse);
      var exit, eSs := ProcessInUse(us, vs0, present, cfg.emptySlotNames, matches);
      if exit == ReturnedNone {
        return OutNone;
      }
      if exit.Raised? {
        return OutRaised(exit.error);
      }
      ValuesPointwise(us, ProcessWheels(vs0, present, cfg.emptySlotNames, matches).wheels);
      r := FinishCreate(filterWheels, all, us, eSs, present);
    }

    /** create() after the loop over the in-use wheels. */
    method FinishCreate(filterWheels: seq<FilterWheel>, ghost all: seq<WheelValue>, us: seq<FilterWheel>,
                        eSs: int, present: set<seq<char>>) returns (r: WheelsOutcome)
      requires Names(filterWheels) == WheelNames(all)
      ensures Observed(r) == FinishWheels(all, Values(us), eSs, foc, cfg, present)
      ensures r.OutCreated? ==> forall w :: w in r.wheels ==> w in us
    {
      if eSs < |us| {
        return OutNone;  // not all filter wheels have an empty slot
      }
      if foc.None? {
        return OutRaised(AttributeError);
      }
      r := CheckWheels(filterWheels, all, us, foc.value, present);
    }

    /** The limit, minimum and device checks, then the sort. */
    method CheckWheels(filterWheels: seq<FilterWheel>, ghost all: seq<WheelValue>, us: seq<FilterWheel>,
                       focuser: Focuser, present: set<seq<char>>) returns (r: WheelsOutcome)
      requires Names(filterWheels) == WheelNames(all)
      ensures Observed(r) == CheckedWheels(all, Values(us), focuser, cfg, present)
      ensures r.OutCreated? ==> forall w :: w in r.wheels ==> w in us
    {
      var bounds := CheckBounds(us, focuser, cfg.blind);
      if bounds.Err? {
        return OutRaised(bounds.error);
      }
      if bounds.value {
        return OutFalse;
      }
      var anyBelow := CheckMinimum(us, cfg.minimumFocuserPositions);
      if anyBelow {
        return OutNone;
      }
      r := CheckDevicesAndSort(filterWheels, all, us, present);
    }

    /** The device check over all wheels, then the sort of the in-use wheels. */
    method CheckDevicesAndSort(filterWheels: seq<FilterWheel>, ghost all: seq<WheelValue>, us: seq<FilterWheel>,
                               present: set<seq<char>>) returns (r: WheelsOutcome)
      requires Names(filterWheels) == WheelNames(all)
      ensures Observed(r) == ReturnedWheels(all, Values(us), cfg.check, present)
      ensures r.OutCreated? ==> forall w :: w in r.wheels ==> w in us
    {
      if cfg.check {
        var err := CheckAll(filterWheels, present);
        if err.Some? {
          return OutRaised(err.value);
        }
      }
      var order := SortOrder(FilterCountKeys(Values(us)), |us|);
      PickValues(us, order);
      r := OutCreated(Pick(us, order));
      assert Observed(r) == WheelsCreated(Pick(Values(us), order));
    }

    /** One wheel per definition, its filters sorted empty slots first. */
    method BuildWheels(defs: seq<(seq<char>, seq<seq<char>>)>, filterDict: map<seq<char>, Filter>)
      returns (r: Option<seq<FilterWheel>>)
      ensures r.Some? <==> InitialWheels(defs, filterDict).Some?
      ensures r.Some? ==> Values(r.value) == InitialWheels(defs, filterDict).value && Distinct(r.value)
      ensures r.Some? ==> forall w :: w in r.value ==> fresh(w)
    {
      var filterWheels: seq<FilterWheel> := [];
      var i := 0;
      while i < |defs|
        invariant 0 <= i <= |defs| && |filterWheels| == i
        invariant forall j :: 0 <= j < i ==> LookupAll(defs[j].1, filterDict).Some?
        invariant forall j :: 0 <= j < i ==> filterWheels[j].Value() == WheelOf(defs[j], filterDict)
        invariant Distinct(filterWheels)
        invariant forall w :: w in filterWheels ==> fresh(w)
      {
        var fs := LookupFilters(defs[i].1, filterDict);
        if fs.None? {
          return None;  // no filter of that name
        }
        var ws := AddWheel(filterWheels, defs[i].0, fs.value);
        assert ws == filterWheels + [ws[i]];
        filterWheels := ws;
        i := i + 1;
      }
      ghost var all := InitialWheels(defs, filterDict).value;
      ValuesPointwise(filterWheels, all);
      return Some(filterWheels);
    }

    /** FilterWheel(name, filters sorted empty slots first), appended to the wheels built so far. */
    method AddWheel(filterWheels: seq<FilterWheel>, name: seq<char>, fs: seq<Filter>) returns (ws: seq<FilterWheel>)
      requires Distinct(filterWheels)
      ensures |ws| == |filterWheels| + 1 && ws[..|filterWheels|] == filterWheels
      ensures fresh(ws[|filterWheels|]) && ws[|filterWheels|].Value() == WheelValue(name, EmptyFirst(fs), [])
      ensures Distinct(ws)
    {
      var ftw := new FilterWheel(name, EmptyFirst(fs));
      DistinctAppend(filterWheels, ftw);
      ws := filterWheels + [ftw];
    }

    /** The wheels FILTER WHEELS INUSE names, in their order. */
    method SelectInUse(filterWheels: seq<FilterWheel>, names: seq<seq<char>>) returns (us: seq<FilterWheel>)
      ensures us == Pick(filterWheels, Selected(Names(filterWheels), names))
    {
      us := [];
      var i := 0;
      while i < |filterWheels|
        invariant 0 <= i <= |filterWheels|
        invariant us == Pick(filterWheels, Selected(Names(filterWheels[..i]), names))
      {
        ghost var idx := Selected(Names(filterWheels[..i]), names);
        assert Names(filterWheels[..i + 1])[..i] == Names(filterWheels[..i]);
        if filterWheels[i].name in names {
          assert Pick(filterWheels, idx + [i]) == Pick(filterWheels, idx) + [filterWheels[i]];
          us := us + [filterWheels[i]];
        }
        i := i + 1;
      }
      assert filterWheels[..i] == filterWheels;
    }

    /** Appends the wheel's empty slots, in order, to its list of empty slots. */
    method CollectEmptySlots(ftw: FilterWheel) returns (n: nat)
      modifies ftw`emptySlots
      ensures ftw.emptySlots == old(ftw.emptySlots) + EmptySlotsOf(ftw.filters)
      ensures n == |EmptySlotsOf(ftw.filters)|
    {
      n := 0;
      var i := 0;
      while i < |ftw.filters|
        invariant 0 <= i <= |ftw.filters|
        invariant ftw.emptySlots == old(ftw.emptySlots) + EmptySlotsOf(ftw.filters[..i])
        invariant n == |EmptySlotsOf(ftw.filters[..i])|
      {
        assert ftw.filters[..i + 1][..i] == ftw.filters[..i];
        var ft := ftw.filters[i];
        if ft.offsetToEmptySlot == Some(0) {
          ftw.emptySlots := ftw.emptySlots + [ft];
          n := n + 1;
        }
        i := i + 1;
      }
      assert ftw.filters[..i] == ftw.filters;
    }

    /**
     * The inner loop over EMPTY_SLOT_NAMES: the result of the last match tried, stopping at
     * the first that succeeds; None when there is no pattern, and m is never bound.
     */
    method MatchEmptySlotName(name: seq<char>, patterns: seq<seq<char>>,
                              matches: MatchRelation) returns (m: Option<bool>)
      ensures m.None? <==> patterns == []
      ensures m.Some? ==> (m.value <==> AnyMatch(patterns, name, matches))
    {
      m := None;
      var j := 0;
      while j < |patterns|
        invariant 0 <= j <= |patterns|
        invariant m.Some? <==> j > 0
        invariant m.Some? ==> !m.value
        invariant forall t :: 0 <= t < j ==> (patterns[t], name) !in matches
      {
        m := Some((patterns[j], name) in matches);
        if m.value {
          assert 0 <= j < |patterns| && (patterns[j], name) in matches;
          return;
        }
        j := j + 1;
      }
    }

    /** The loop over the empty slots after the first, removing those whose names match. */
    method DropExtraEmptySlots(ftw: FilterWheel, patterns: seq<seq<char>>,
                               matches: MatchRelation) returns (err: Option<PyError>)
      requires ftw.emptySlots != []
      modifies ftw`filters
      ensures match DropExtra(old(ftw.filters), ftw.emptySlots[1..], patterns, matches)
        case Err(e) => err == Some(e)
        case Ok(fs) => err == None && ftw.filters == fs
    {
      var extra := ftw.emptySlots[1..];
      var i := 0;
      while i < |extra|
        invariant 0 <= i <= |extra|
        invariant DropExtra(old(ftw.filters), extra, patterns, matches) ==
                  DropExtra(ftw.filters, extra[i..], patterns, matches)
      {
        assert extra[i..][1..] == extra[i + 1..];
        var m := MatchEmptySlotName(extra[i].name, patterns, matches);
        if m.None? {
          return Some(NameError);
        }
        if m.value {
          if extra[i] !in ftw.filters {
            return Some(ValueError);
          }
          ftw.filters := RemoveFirst(ftw.filters, extra[i]);
        }
        i := i + 1;
      }
      assert extra[i..] == [];
      return None;
    }

    /** The loop over the in-use wheels: proxy lookup, empty slots, and the count eSs. */
    method ProcessInUse(us: seq<FilterWheel>, ghost vs0: seq<WheelValue>, present: set<seq<char>>,
                        patterns: seq<seq<char>>, matches: MatchRelation)
      returns (exit: LoopExit, eSs: int)
      requires Distinct(us) && |us| == |vs0| && forall j :: 0 <= j < |us| ==> us[j].Value() == vs0[j]
      modifies set w | w in us
      ensures match ProcessWheels(vs0, present, patterns, matches)
        case PassNone => exit == ReturnedNone
        case PassRaised(e) => exit == Raised(e)
        case PassDone(done, n) =>
          exit == Completed && eSs == n && forall j :: 0 <= j < |us| ==> us[j].Value() == done[j]
    {
      ghost var done: seq<WheelValue> := [];
      eSs := 0;
      var k := 0;
      while k < |us|
        invariant 0 <= k <= |us|
        invariant ProcessFrom(vs0, k, done, eSs, present, patterns, matches) == ProcessWheels(vs0, present, patterns, matches)
        invariant |done| == k
        invariant forall j :: 0 <= j < k ==> us[j].Value() == done[j]
        invariant forall j :: k <= j < |us| ==> us[j].Value() == vs0[j]
      {
        var stop, n;
        stop, n, done := ProcessWheelAt(us, k, vs0, done, eSs, present, patterns, matches);
        if stop.Some? {
          return stop.value, eSs;
        }
        eSs := eSs + n;
        k := k + 1;
      }
      return Completed, eSs;
    }

    /**
     * One turn of the loop over the in-use wheels: the proxy lookup, then the empty slots of
     * the k-th wheel; the other wheels keep their values.
     */
    method ProcessWheelAt(us: seq<FilterWheel>, k: nat, ghost vs0: seq<WheelValue>, ghost done: seq<WheelValue>,
                          ghost eSs: int, present: set<seq<char>>, patterns: seq<seq<char>>,
                          matches: MatchRelation)
      returns (stop: Option<LoopExit>, n: nat, ghost done2: seq<WheelValue>)
      requires k < |us| == |vs0| && us[k].Value() == vs0[k]
      requires forall j :: 0 <= j < |us| && j != k ==> us[j] != us[k]
      modifies us[k]
      ensures forall j :: 0 <= j < |us| && j != k ==> us[j].Value() == old(us[j].Value())
      ensures stop == Some(ReturnedNone) ==> ProcessTurn(vs0, k, done, eSs, present, patterns, matches) == PassNone
      ensures stop.Some? && stop.value.Raised? ==>
        ProcessTurn(vs0, k, done, eSs, present, patterns, matches) == PassRaised(stop.value.error)
      ensures stop.Some? ==> !stop.value.Completed?
      ensures stop.None? ==> (done2 == done + [us[k].Value()] &&
        ProcessTurn(vs0, k, done, eSs, present, patterns, matches) ==
        ProcessFrom(vs0, k + 1, done2, eSs + n, present, patterns, matches))
    {
      done2 := done;
      n := 0;
      if !Reachable(us[k].name, present) {
        ProcessFromUnreachable(vs0, k, done, eSs, present, patterns, matches);
        return Some(ReturnedNone), n, done2;
      }
      var err;
      err, n := ProcessWheelObject(us[k], patterns, matches);
      if err.Some? {
        ProcessFromFails(vs0, k, done, eSs, present, patterns, matches, err.value);
        return Some(Raised(err.value)), n, done2;
      }
      ProcessFromAdvances(vs0, k, done, eSs, present, patterns, matches, us[k].Value());
      done2 := done + [us[k].Value()];
      stop := None;
    }

    /** The body of the loop over the in-use wheels, once the wheel is known to be reachable. */
    method ProcessWheelObject(ftw: FilterWheel, patterns: seq<seq<char>>, matches: MatchRelation)
      returns (err: Option<PyError>, n: nat)
      modifies ftw
      ensures n == |EmptySlotsOf(old(ftw.filters))|
      ensures ProcessWheel(old(ftw.Value()), patterns, matches) ==
        if err.Some? then Err(err.value) else Ok(ftw.Value())
    {
      n := CollectEmptySlots(ftw);
      err := None;
      if ftw.emptySlots != [] {
        err := DropExtraEmptySlots(ftw, patterns, matches);
      }
    }

    /** The limit loop over the filters of one wheel; no filter without steps, or ValueError. */
    method CheckWheelLimits(ftw: FilterWheel, focuser: Focuser) returns (r: Result<bool, PyError>)
      ensures r == if WheelHasNoSteps(ftw.Value()) then Err(ValueError)
                   else Ok(WheelOutOfLimits(ftw.Value(), focuser))
    {
      var anyOut := false;
      var i := 0;
      while i < |ftw.filters|
        invariant 0 <= i <= |ftw.filters|
        invariant forall j :: 0 <= j < i ==> ftw.filters[j].focFoff != []
        invariant anyOut <==> exists j :: 0 <= j < i && FilterOutOfLimits(ftw.filters[j], focuser) == Ok(true)
      {
        var ft := ftw.filters[i];
        if ft.focFoff == [] {
          return Err(ValueError);  // min() of an empty sequence
        }
        var rangeMin := focuser.focDef + SeqMin(ft.focFoff);
        var rangeMax := focuser.focDef + SeqMax(ft.focFoff);
        if !WithinLimits(focuser.absLowerLimit, focuser.absUpperLimit, rangeMin, rangeMax) {
          anyOut := true;
        }
        i := i + 1;
      }
      return Ok(anyOut);
    }

    /** The limit loop over the in-use wheels. */
    method CheckBounds(us: seq<FilterWheel>, focuser: Focuser, blind: bool) returns (r: Result<bool, PyError>)
      ensures r == BoundsCheck(Values(us), focuser, blind)
    {
      ghost var vs := Values(us);
      var anyOutOfLlUl := false;
      var k := 0;
      while k < |us|
        invariant 0 <= k <= |us|
        invariant !blind ==> forall m :: 0 <= m < k && CheckedWheel(vs, m) ==> !WheelHasNoSteps(vs[m])
        invariant anyOutOfLlUl <==>
          !blind && exists m :: 0 <= m < k && CheckedWheel(vs, m) && WheelOutOfLimits(vs[m], focuser)
      {
        assert vs[k] == us[k].Value();
        if (|us[k].filters| > 1 || k == 0) && !blind {
          var w := CheckWheelLimits(us[k], focuser);
          if w.Err? {
            return w;
          }
          anyOutOfLlUl := anyOutOfLlUl || w.value;
        }
        k := k + 1;
      }
      return Ok(anyOutOfLlUl);
    }

    /** The MINIMUM_FOCUSER_POSITIONS loop. */
    method CheckMinimum(us: seq<FilterWheel>, minimum: int) returns (anyBelow: bool)
      ensures anyBelow == AnyBelowMinimum(Values(us), minimum)
    {
      anyBelow := false;
      var k := 0;
      while k < |us|
        invariant 0 <= k <= |us|
        invariant anyBelow <==> exists m :: 0 <= m < k && WheelBelowMinimum(us[m].Value(), minimum)
      {
        var i := 0;
        var below := false;
        while i < |us[k].filters|
          invariant 0 <= i <= |us[k].filters|
          invariant below <==> exists j :: 0 <= j < i && |us[k].filters[j].focFoff| <= minimum
        {
          if |us[k].filters[i].focFoff| <= minimum {
            below := true;
          }
          i := i + 1;
        }
        anyBelow := anyBelow || below;
        k := k + 1;
      }
    }

    /** The check loop over all wheels: the first one the proxy does not know raises. */
    method CheckAll(filterWheels: seq<FilterWheel>, present: set<seq<char>>) returns (err: Option<PyError>)
      ensures err.Some? <==> !AllPresent(Names(filterWheels), present)
      ensures err.Some? ==> err.value == AttributeError
    {
      var i := 0;
      while i < |filterWheels|
        invariant 0 <= i <= |filterWheels|
        invariant forall j :: 0 <= j < i ==> filterWheels[j].name in present
      {
        var ok := filterWheels[i].Check(present);
        if ok.Err? {
          return Some(ok.error);
        }
        i := i + 1;
      }
      return None;
    }
  }

  lemma ValuesAppend(ws: seq<FilterWheel>, w: FilterWheel)
    ensures Values(ws + [w]) == Values(ws) + [w.Value()]
  {
    assert (ws + [w])[..|ws|] == ws;
  }

  /** An unreachable wheel ends the loop with None. */
  lemma ProcessFromUnreachable(vs: seq<WheelValue>, k: nat, done: seq<WheelValue>, eSs: int, present: set<seq<char>>,
                               patterns: seq<seq<char>>, matches: MatchRelation)
    requires k < |vs| && !Reachable(vs[k].name, present)
    ensures ProcessTurn(vs, k, done, eSs, present, patterns, matches) == PassNone
  {
  }

  /** A wheel whose empty slots raise ends the loop with that exception. */
  lemma ProcessFromFails(vs: seq<WheelValue>, k: nat, done: seq<WheelValue>, eSs: int, present: set<seq<char>>,
                         patterns: seq<seq<char>>, matches: MatchRelation, e: PyError)
    requires k < |vs| && Reachable(vs[k].name, present) && ProcessWheel(vs[k], patterns, matches) == Err(e)
    ensures ProcessTurn(vs, k, done, eSs, present, patterns, matches) == PassRaised(e)
  {
  }

  /** A wheel processed without error is appended, and its empty slots counted. */
  lemma ProcessFromAdvances(vs: seq<WheelValue>, k: nat, done: seq<WheelValue>, eSs: int, present: set<seq<char>>,
                            patterns: seq<seq<char>>, matches: MatchRelation, w2: WheelValue)
    requires k < |vs| && Reachable(vs[k].name, present) && ProcessWheel(vs[k], patterns, matches) == Ok(w2)
    ensures ProcessTurn(vs, k, done, eSs, present, patterns, matches) ==
      ProcessFrom(vs, k + 1, done + [w2], eSs + |EmptySlotsOf(vs[k].filters)|, present, patterns, matches)
  {
  }

  /** Once a name is missing, the later names are not looked up. */
  lemma {:induction false} LookupAllStops(names: seq<seq<char>>, dict: map<seq<char>, Filter>, i: nat)
    requires i <= |names| && LookupAll(names[..i], dict).None?
    ensures LookupAll(names, dict).None?
    decreases |names| - i
  {
    if i < |names| {
      assert names[..i + 1][..i] == names[..i];
      LookupAllStops(names, dict, i + 1);
    } else {
      assert names[..i] == names;
    }
  }
}
