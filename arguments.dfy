/**
 * The command line the G-code filter runs the ArcWelder tool with. Numeric options
 * that the plugin formats with `%f` are kept as the strings that formatting yields;
 * the integer minimum segment count is formatted here, as `%d` does.
 */
module ArcWelderArguments {
  import opened Wrappers

  /** The ArcWelder options read from the global container stack for one filter run. */
  datatype Settings = Settings(
    maximumRadius: string,     // "%f" % arcwelder_maximum_radius
    pathTolerance: string,     // "%f" % (arcwelder_tolerance / 100)
    resolution: string,        // "%f" % arcwelder_resolution
    minArcSegment: int,        // int(arcwelder_min_arc_segment)
    mmPerArcSegment: string,   // "%f" % arcwelder_mm_per_arc_segment
    allow3dArcs: bool,
    g90InfluencesExtruder: bool)

  /** The character of a decimal digit 0..9. */
  function DigitChar(d: nat): char
    requires d < 10
  {
    (('0' as int) + d) as char
  }

  predicate IsDigit(c: char)
  {
    '0' <= c <= '9'
  }

  /** `"%d" % n` for a natural number: decimal, no sign, no leading zeros. */
  function DecimalString(n: nat): (r: string)
    ensures |r| >= 1
    ensures forall k :: 0 <= k < |r| ==> IsDigit(r[k])
    decreases n
  {
    if n < 10 then [DigitChar(n)] else DecimalString(n / 10) + [DigitChar(n % 10)]
  }

  /** The value of a string of decimal digits. */
  function DigitsValue(s: string): nat
    requires forall k :: 0 <= k < |s| ==> IsDigit(s[k])
    decreases |s|
  {
    if |s| == 0 then 0
    else
      assert IsDigit(s[|s| - 1]);
      DigitsValue(s[..|s| - 1]) * 10 + ((s[|s| - 1] as int) - ('0' as int))
  }

  /** Reads a non-empty string of decimal digits back as a number. */
  function ParseDecimal(s: string): Option<nat>
  {
    if |s| > 0 && forall k :: 0 <= k < |s| ==> IsDigit(s[k]) then Some(DigitsValue(s)) else None
  }

  /** Reading back what `DecimalString` writes gives the number. */
  lemma {:induction false} ParseDecimalString(n: nat)
    ensures ParseDecimal(DecimalString(n)) == Some(n)
    decreases n
  {
    var s := DecimalString(n);
    if n >= 10 {
      ParseDecimalString(n / 10);
      assert s[..|s| - 1] == DecimalString(n / 10);
      assert DigitsValue(s) == DigitsValue(DecimalString(n / 10)) * 10 + n % 10;
    } else {
      assert DigitsValue(s) == DigitsValue(s[..0]) * 10 + n;
    }
  }

  /** `command_arguments`: the tool, its options in a fixed order, the input file last. */
  function CommandArguments(executable: string, s: Settings, temporaryPath: string): (r: seq<string>)
    ensures |r| == 5 + (if s.minArcSegment > 0 then 2 else 0)
                     + (if s.allow3dArcs then 1 else 0) + (if s.g90InfluencesExtruder then 1 else 0)
    ensures r[0] == executable && r[|r| - 1] == temporaryPath
  {
    [executable, "-m=" + s.maximumRadius, "-t=" + s.pathTolerance, "-r=" + s.resolution]
    + (if s.minArcSegment > 0 then ["-s=" + s.mmPerArcSegment, "-a=" + DecimalString(s.minArcSegment)] else [])
    + (if s.allow3dArcs then ["-z"] else [])
    + (if s.g90InfluencesExtruder then ["-g"] else [])
    + [temporaryPath]
  }

  /** Builds `command_arguments` by appending to a list, as the plugin does. */
  method BuildCommandArguments(executable: string, s: Settings, temporaryPath: string)
    returns (args: seq<string>)
    ensures args == CommandArguments(executable, s, temporaryPath)
  {
    args := [executable, "-m=" + s.maximumRadius, "-t=" + s.pathTolerance, "-r=" + s.resolution];
    if s.minArcSegment > 0 {
      args := args + ["-s=" + s.mmPerArcSegment, "-a=" + DecimalString(s.minArcSegment)];
    }
    if s.allow3dArcs {
      args := args + ["-z"];
    }
    if s.g90InfluencesExtruder {
      args := args + ["-g"];
    }
    args := args + [temporaryPath];
  }

  /** An invocation of the tool as its command line describes it. */
  datatype Invocation = Invocation(
    executable: string,
    maximumRadius: string,
    pathTolerance: string,
    resolution: string,
    arcSegments: Option<(string, nat)>,   // (-s value, -a count), present together or not at all
    allow3dArcs: bool,
    g90InfluencesExtruder: bool,
    inputPath: string)

  /** The value of option `flag` (such as "-m=") in argument `a`, if `a` is that option. */
  function OptionValue(flag: string, a: string): Option<string>
  {
    if flag <= a then Some(a[|flag|..]) else None
  }

  /**
   * Reads a command line that has the grammar
   *   tool -m=V -t=V -r=V [-s=V -a=N] [-z] [-g] path
   * and nothing else; None when the list is not of that form.
   */
  function ParseCommandLine(args: seq<string>): Option<Invocation>
  {
    if |args| < 5 then None
    else
      var m, t, r := OptionValue("-m=", args[1]), OptionValue("-t=", args[2]), OptionValue("-r=", args[3]);
      var flags := args[4..|args| - 1];
      var hasSegments := |flags| >= 2 && OptionValue("-s=", flags[0]).Some? && OptionValue("-a=", flags[1]).Some?;
      var segments: Option<(string, string)> :=
        if hasSegments then Some((OptionValue("-s=", flags[0]).value, OptionValue("-a=", flags[1]).value)) else None;
      var afterSegments := if hasSegments then flags[2..] else flags;
      var z := |afterSegments| > 0 && afterSegments[0] == "-z";
      var afterZ := if z then afterSegments[1..] else afterSegments;
      var g := |afterZ| > 0 && afterZ[0] == "-g";
      var afterG := if g then afterZ[1..] else afterZ;
      if m.None? || t.None? || r.None? || afterG != [] then None
      else match segments
        case None => Some(Invocation(args[0], m.value, t.value, r.value, None, z, g, args[|args| - 1]))
        case Some((mm, count)) =>
          match ParseDecimal(count)
          case None => None
          case Some(n) => Some(Invocation(args[0], m.value, t.value, r.value, Some((mm, n)), z, g, args[|args| - 1]))
  }

  /**
   * The built command line has exactly that grammar, and reading it back recovers
   * every setting the tool is given: -s and -a only when the minimum segment count
   * is positive, -z only with 3D arcs allowed, -g only when G90 influences the
   * extruder, and the input file last.
   */
  lemma CommandLineRoundTrip(executable: string, s: Settings, temporaryPath: string)
    ensures ParseCommandLine(CommandArguments(executable, s, temporaryPath))
         == Some(Invocation(executable, s.maximumRadius, s.pathTolerance, s.resolution,
                            if s.minArcSegment > 0 then Some((s.mmPerArcSegment, s.minArcSegment as nat)) else None,
                            s.allow3dArcs, s.g90InfluencesExtruder, temporaryPath))
  {
    var args := CommandArguments(executable, s, temporaryPath);
    var flags := args[4..|args| - 1];
    var seg := if s.minArcSegment > 0 then ["-s=" + s.mmPerArcSegment, "-a=" + DecimalString(s.minArcSegment)] else [];
    var z := if s.allow3dArcs then ["-z"] else [];
    var g := if s.g90InfluencesExtruder then ["-g"] else [];
    assert flags == seg + z + g;
    assert OptionValue("-m=", args[1]) == Some(s.maximumRadius);
    assert OptionValue("-t=", args[2]) == Some(s.pathTolerance);
    assert OptionValue("-r=", args[3]) == Some(s.resolution);
    if s.minArcSegment > 0 {
      ParseDecimalString(s.minArcSegment);
      assert OptionValue("-s=", flags[0]) == Some(s.mmPerArcSegment);
      assert OptionValue("-a=", flags[1]) == Some(DecimalString(s.minArcSegment));
      assert flags[2..] == z + g;
    } else if |flags| >= 2 {
      assert flags[0] == "-z" && !("-s=" <= "-z");
    }
  }
}
