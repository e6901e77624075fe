/**
 * The command-line state of the target-info tool (Rts2TargetInfo): the print flags its
 * options set, the target ids its arguments name, and the walk over those ids that
 * prints what is known of each target. Database lookups and the printing itself are
 * outside the model: whether a target exists is a parameter, and what the tool would
 * print for a target is summarised as a Report.
 */
module TargetInfo {
  import opened Wrappers
  import opened CString

  /**
   * The display bits of Rts2ObsSet/Rts2ImgSet printing: every row (DISPLAY_ALL, 1) or the
   * summary row (DISPLAY_SUMMARY, 2). The images and counts flags start at 0 and only ever
   * have these bits ORed in, so a flag is the set of its bits.
   */
  datatype Display = DisplayAll | DisplaySummary

  /** The C int a set of display bits stands for. */
  function DisplayValue(bits: set<Display>): (v: int)
    ensures 0 <= v <= 3
    ensures (v % 2 == 1 <==> DisplayAll in bits) && (v / 2 == 1 <==> DisplaySummary in bits)
  {
    (if DisplayAll in bits then 1 else 0) + (if DisplaySummary in bits then 2 else 0)
  }

  /** A flag is zero exactly when no bit has been ORed into it. */
  lemma DisplayValueZero(bits: set<Display>)
    ensures DisplayValue(bits) == 0 <==> bits == {}
  {
    if bits != {} {
      var d :| d in bits;
      assert d.DisplayAll? || d.DisplaySummary?;
    }
  }

  /** The four print flags: printExtendet, printObservations, printImages, printCounts. */
  datatype Flags = Flags(extended: bool, observations: bool, images: set<Display>, counts: set<Display>)

  /** The flags as the constructor leaves them: all clear. */
  const NoFlags := Flags(false, false, {}, {})

  /** The options processOption handles itself; any other goes to the base application. */
  predicate OwnOption(opt: char) {
    opt == 'E' || opt == 'o' || opt == 'i' || opt == 'I' || opt == 'p' || opt == 'P'
  }

  /** The display bit an option ORs in: DisplayAll for the letter all, DisplaySummary for the letter summary. */
  function DisplayBit(opt: char, all: char, summary: char): set<Display> {
    (if opt == all then {DisplayAll} else {}) + (if opt == summary then {DisplaySummary} else {})
  }

  /**
   * What one option does to the flags: E and o switch their flag on, i and I OR a display
   * bit into the images flag, p and P into the counts flag.
   */
  function ApplyOption(f: Flags, opt: char): Flags {
    Flags(f.extended || opt == 'E', f.observations || opt == 'o',
      f.images + DisplayBit(opt, 'i', 'I'), f.counts + DisplayBit(opt, 'p', 'P'))
  }

  /**
   * An option only ever adds: no flag that was on is switched off, and options that are
   * not the tool's own leave every flag alone.
   */
  lemma ApplyOptionOnlyAdds(f: Flags, opt: char)
    ensures f.extended ==> ApplyOption(f, opt).extended
    ensures f.observations ==> ApplyOption(f, opt).observations
    ensures f.images <= ApplyOption(f, opt).images && f.counts <= ApplyOption(f, opt).counts
    ensures !OwnOption(opt) ==> ApplyOption(f, opt) == f
  {
  }

  /** Giving the same option twice is the same as giving it once. */
  lemma ApplyOptionIdempotent(f: Flags, opt: char)
    ensures ApplyOption(ApplyOption(f, opt), opt) == ApplyOption(f, opt)
  {
  }

  /** The order in which two options are given does not matter. */
  lemma ApplyOptionCommutes(f: Flags, a: char, b: char)
    ensures ApplyOption(ApplyOption(f, a), b) == ApplyOption(ApplyOption(f, b), a)
  {
  }

  /** The flags after the options opts, given in order, starting from f. */
  function ApplyOptions(f: Flags, opts: seq<char>): Flags
    decreases |opts|
  {
    if opts == [] then f else ApplyOptions(ApplyOption(f, opts[0]), opts[1..])
  }

  /** The display bits that the options opts ask for with the letters all and summary. */
  function DisplayBits(opts: seq<char>, all: char, summary: char): set<Display> {
    (if all in opts then {DisplayAll} else {}) + (if summary in opts then {DisplaySummary} else {})
  }

  /**
   * After any run of options the flags say exactly which options were present: E and o
   * switch their flags on, and the display bits are the OR of those of i/I and p/P.
   */
  lemma {:induction false} ApplyOptionsFlags(f: Flags, opts: seq<char>)
    ensures ApplyOptions(f, opts).extended <==> (f.extended || 'E' in opts)
    ensures ApplyOptions(f, opts).observations <==> (f.observations || 'o' in opts)
    ensures ApplyOptions(f, opts).images == f.images + DisplayBits(opts, 'i', 'I')
    ensures ApplyOptions(f, opts).counts == f.counts + DisplayBits(opts, 'p', 'P')
    decreases |opts|
  {
    if opts != [] {
      var o, rest := opts[0], opts[1..];
      assert opts == [o] + rest;
      ApplyOptionsFlags(ApplyOption(f, o), rest);
    }
  }

  /** What a target's listing of observations or images shows. */
  datatype Listing =
    | ObservationSet(images: set<Display>, counts: set<Display>)  // the observations, with their images and counts
    | ImageSet(images: set<Display>)                             // the images alone
    | NoListing

  /** The listing printTargetInfo chooses from the flags. */
  function ListingFor(f: Flags): (l: Listing)
    // the observation set is listed exactly when o was given, and carries both display modes
    ensures l.ObservationSet? <==> f.observations
    ensures l.ObservationSet? ==> l.images == f.images && l.counts == f.counts
  {
    if f.observations then ObservationSet(f.images, f.counts)
    else if f.images != {} || f.counts != {} then
      (if f.images != {} then ImageSet(f.images) else NoListing)
    else NoListing
  }

  /**
   * Without the observations flag the counts flag changes nothing: only the images flag
   * brings the image set, and counts alone print no table.
   */
  lemma CountsNeedObservations(f: Flags, counts: set<Display>)
    requires !f.observations
    ensures ListingFor(f.(counts := counts)) == ListingFor(f)
    ensures ListingFor(f).ImageSet? <==> f.images != {}
    ensures ListingFor(f).NoListing? <==> f.images == {}
  {
  }

  /** What the tool prints for one target id. */
  datatype Report =
    | NotFound(id: int)                                     // the "Cannot find target" line
    | Shown(id: int, extended: bool, listing: Listing)      // the target, its positions if asked, its listing

  /** The report for one id, given whether createTarget finds it. */
  function ReportFor(id: int, found: int -> bool, f: Flags): (r: Report)
    ensures r.id == id
    ensures r.Shown? <==> found(id)
    ensures r.Shown? ==> r.extended == f.extended && r.listing == ListingFor(f)
  {
    if found(id) then Shown(id, f.extended, ListingFor(f)) else NotFound(id)
  }

  /** The reports for the ids, in order. */
  function Reports(ids: seq<int>, found: int -> bool, f: Flags): seq<Report>
    decreases |ids|
  {
    if ids == [] then [] else Reports(ids[..|ids| - 1], found, f) + [ReportFor(ids[|ids| - 1], found, f)]
  }

  /** There is one report per id, in the order of the ids, whether the target is found or not. */
  lemma {:induction false} ReportsInOrder(ids: seq<int>, found: int -> bool, f: Flags)
    ensures |Reports(ids, found, f)| == |ids|
    ensures forall k :: 0 <= k < |ids| ==> Reports(ids, found, f)[k] == ReportFor(ids[k], found, f)
    decreases |ids|
  {
    if ids != [] {
      ReportsInOrder(ids[..|ids| - 1], found, f);
    }
  }

  /** The id a target argument names, when strtol reads the whole of it. */
  function ArgumentId(arg: string): (id: Option<int>)
    ensures id.Some? <==> Strtol(arg).end == |arg|
    ensures id.Some? ==> -0x8000_0000 <= id.value < 0x8000_0000
  {
    var p := Strtol(arg);
    if p.end == |arg| then Some(ToInt32(p.value)) else None
  }

  /** An argument strtol reads in full names the value read, narrowed to int. */
  lemma ArgumentIdOfParsed(arg: string, v: int)
    requires Strtol(arg) == Parsed(v, |arg|)
    ensures ArgumentId(arg) == Some(ToInt32(v))
  {
  }

  /** The decimal text of an id in int range, with or without a minus sign, names that id. */
  lemma ArgumentIdOfDecimal(n: nat, negative: bool)
    requires n < 0x8000_0000
    ensures ArgumentId(if negative then ['-'] + Decimal(n) else Decimal(n)) == Some(if negative then -(n as int) else n)
  {
    if negative {
      StrtolOfNegatedDecimal(n);
      ArgumentIdOfParsed(['-'] + Decimal(n), -(n as int));
    } else {
      StrtolOfDecimal(n);
      ArgumentIdOfParsed(Decimal(n), n);
    }
  }

  /** Every argument that is not an integer's text is refused, except the empty one, which names id 0. */
  lemma ArgumentIdAccepts(arg: string)
    ensures ArgumentId(arg).Some? <==> (|arg| == 0 || IsIntegerText(arg))
    ensures |arg| == 0 ==> ArgumentId(arg) == Some(0)
  {
    StrtolWholeIff(arg);
  }

  /**
   * An id beyond the int range is not refused: it is accepted and wraps round to an int
   * that differs from it (by a multiple of 2^32, so the text of 4294967297 names target 1).
   */
  lemma ArgumentIdWraps(n: nat)
    requires 0x8000_0000 <= n <= LONG_MAX
    ensures ArgumentId(Decimal(n)) == Some(ToInt32(n))
    ensures ToInt32(n) != n
  {
    StrtolOfDecimal(n);
    ArgumentIdOfParsed(Decimal(n), n);
  }

  class TargetInfoApp {
    /** The target ids from the command line, in the order given. */
    var targets: seq<int>
    var printExtendet: bool
    var printObservations: bool
    var printImages: set<Display>
    var printCounts: set<Display>
    /** Everything run has printed, one report per target id visited. */
    var reports: seq<Report>

    function CurrentFlags(): Flags
      reads this
    {
      Flags(printExtendet, printObservations, printImages, printCounts)
    }

    constructor ()
      ensures CurrentFlags() == NoFlags && targets == [] && reports == []
    {
      targets := [];
      printExtendet := false;
      printObservations := false;
      printImages := {};
      printCounts := {};
      reports := [];
    }

    /**
     * processOption: the tool's own options change the flags and answer 0; any other
     * option is answered by the base application (baseProcess) and changes no flag here.
     */
    method ProcessOption(opt: char, baseProcess: char -> int) returns (ret: int)
      modifies this`printExtendet, this`printObservations, this`printImages, this`printCounts
      ensures CurrentFlags() == ApplyOption(old(CurrentFlags()), opt)
      ensures ret == if OwnOption(opt) then 0 else baseProcess(opt)
    {
      match opt {
        case 'E' => printExtendet := true;
        case 'o' => printObservations := true;
        case 'i' => printImages := printImages + {DisplayAll};
        case 'I' => printImages := printImages + {DisplaySummary};
        case 'p' => printCounts := printCounts + {DisplayAll};
        case 'P' => printCounts := printCounts + {DisplaySummary};
        case _ => return baseProcess(opt);
      }
      return 0;
    }

    /**
     * processArgs: an argument strtol reads in full adds its id, narrowed to int, at the
     * end of the list; any other argument is refused with -1 and adds nothing.
     */
    method ProcessArgs(arg: string) returns (ret: int)
      modifies this`targets
      ensures ArgumentId(arg).Some? ==> ret == 0 && targets == old(targets) + [ArgumentId(arg).value]
      ensures ArgumentId(arg).None? ==> ret == -1 && targets == old(targets)
    {
      var p := Strtol(arg);
      if p.end != |arg| {
        return -1;
      }
      targets := targets + [ToInt32(p.value)];
      return 0;
    }

    /**
     * run: visits the target ids in the order they were given and reports each, skipping
     * to the next id when createTarget (found) does not know it.
     */
    method Run(found: int -> bool) returns (ret: int)
      modifies this`reports
      ensures ret == 0
      ensures reports == old(reports) + Reports(targets, found, CurrentFlags())
    {
      var i := 0;
      while i < |targets|
        invariant 0 <= i <= |targets|
        invariant reports == old(reports) + Reports(targets[..i], found, CurrentFlags())
      {
        assert targets[..i + 1][..i] == targets[..i];
        reports := reports + [ReportFor(targets[i], found, CurrentFlags())];
        i := i + 1;
      }
      assert targets[..i] == targets;
      return 0;
    }
  }

  /**
   * The dates printTargetInfo gives the extended position report for: ten of them, ten
   * days apart, starting ten days after the Julian date now.
   */
  method ExtendedDates(now: real) returns (dates: seq<real>)
    ensures |dates| == 10
    ensures forall k :: 0 <= k < 10 ==> dates[k] == now + 10.0 * (k + 1) as real
  {
    var jd := now;
    dates := [];
    for i := 0 to 10
      invariant |dates| == i
      invariant jd == now + 10.0 * i as real
      invariant forall k :: 0 <= k < i ==> dates[k] == now + 10.0 * (k + 1) as real
    {
      jd := jd + 10.0;
      dates := dates + [jd];
    }
  }
}
