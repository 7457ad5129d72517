/**
 * The plugin's output-write hook `_filterGcode`: for every plate of the scene's
 * `gcode_dict`, in the dictionary's order, pop the header layer, join the other
 * layers for the ArcWelder tool, split the tool's output back into layers, put
 * the header back in front and mark the plate as processed.
 */
module GcodeFilter {
  import opened Wrappers
  import opened Text
  import opened LayerCodec
  import opened ArcWelderArguments

  type PlateId = int

  /**
   * The ArcWelder tool as seen by the plugin: given the command line and the text
   * written to the temporary file, the text it leaves in that file, or None when
   * any step from writing that file to reading it back raises (lines 193-226:
   * `mkstemp`, the write, `check_output`, the decoding, the read, `os.remove`).
   */
  type Tool = (seq<string>, string) -> Option<string>

  /** What one filter run works with: the executable, the options, the tool, and the temporary file `mkstemp` gives each plate. */
  datatype Welder = Welder(executable: string, settings: Settings, tool: Tool, temporaryPath: PlateId -> string)

  /** A plate the filter leaves alone: fewer than two layers, or a first layer holding the marker. */
  predicate Skipped(layers: seq<string>)
  {
    |layers| < 2 || Contains(layers[0], ProcessedMarker)
  }

  /** What happens to one plate. */
  datatype PlateResult =
    | TooFewLayers
    | AlreadyProcessed
    | Welded(layers: seq<string>)             // the new list stored for the plate
    | ToolFailed(remaining: seq<string>)      // the plate's list after the header was popped

  /** `gcode_list[0] += processed_marker`: the marker is appended to the first layer, the rest is untouched. */
  function Mark(layers: seq<string>): (r: seq<string>)
    requires |layers| > 0
    ensures |r| == |layers| && layers[0] <= r[0] && r[0][|layers[0]|..] == ProcessedMarker
    ensures forall k :: 0 < k < |layers| ==> r[k] == layers[k]
    ensures Contains(r[0], ProcessedMarker)
  {
    ContainsSuffix(layers[0], ProcessedMarker);
    layers[0 := layers[0] + ProcessedMarker]
  }

  /** The text written to the temporary file for a plate: its layers after the header, joined. */
  function ToolInput(layers: seq<string>): string
    requires |layers| > 0
  {
    Join(LayerSeparator, layers[1..])
  }

  /** ArcWelderPlugin.py, lines 177-233: what the filter does to one plate. */
  function FilterPlate(w: Welder, id: PlateId, layers: seq<string>): PlateResult
  {
    if |layers| < 2 then TooFewLayers
    else if Contains(layers[0], ProcessedMarker) then AlreadyProcessed
    else
      var header := layers[0];
      match w.tool(CommandArguments(w.executable, w.settings, w.temporaryPath(id)), ToolInput(layers))
      case None => ToolFailed(layers[1..])
      case Some(output) =>
        var pieces := Split(output, LayerSeparator);
        // the header goes back in front, unless it is the empty string
        Welded(Mark(if header != "" then [header] + pieces else pieces))
  }

  /** The list a plate holds after the filter has visited it. */
  function PlateAfter(w: Welder, id: PlateId, layers: seq<string>): seq<string>
  {
    match FilterPlate(w, id, layers)
    case Welded(n) => n
    case ToolFailed(rest) => rest
    case _ => layers
  }

  /** How a filter run ends. */
  datatype Outcome =
    | NoGlobalStack
    | NotEnabled
    | NoGcode
    | Finished(dictChanged: bool)
    | ToolError(plate: PlateId)      // a step of lines 193-226 raised while this plate was processed

  datatype Run = Run(plates: map<PlateId, seq<string>>, outcome: Outcome)

  /** The loop of ArcWelderPlugin.py, lines 176-233, over the plates in `order`, from dictionary `plates` and flag `changed`. */
  function FilterPlates(w: Welder, order: seq<PlateId>, plates: map<PlateId, seq<string>>, changed: bool): (r: Run)
    requires forall k :: 0 <= k < |order| ==> order[k] in plates
    ensures r.plates.Keys == plates.Keys
    ensures r.outcome.Finished? || r.outcome.ToolError?
    decreases |order|
  {
    if |order| == 0 then Run(plates, Finished(changed))
    else
      var id := order[0];
      match FilterPlate(w, id, plates[id])
      case TooFewLayers => FilterPlates(w, order[1..], plates, changed)
      case AlreadyProcessed => FilterPlates(w, order[1..], plates, changed)
      case Welded(layers) => FilterPlates(w, order[1..], plates[id := layers], true)
      case ToolFailed(rest) => Run(plates[id := rest], ToolError(id))
  }

  predicate Distinct(order: seq<PlateId>)
  {
    forall i, j :: 0 <= i < j < |order| ==> order[i] != order[j]
  }

  // ---------------------------------------------------------------------------
  // One plate
  // ---------------------------------------------------------------------------

  /** A plate is skipped exactly when it has fewer than two layers or is already marked; a skipped plate keeps its list. */
  lemma SkippedPlate(w: Welder, id: PlateId, layers: seq<string>)
    ensures Skipped(layers) <==> (FilterPlate(w, id, layers).TooFewLayers? || FilterPlate(w, id, layers).AlreadyProcessed?)
    ensures |layers| < 2 <==> FilterPlate(w, id, layers).TooFewLayers?
    ensures Skipped(layers) ==> PlateAfter(w, id, layers) == layers
  {
  }

  /** A welded plate's new list is marked, so a later run skips it. */
  lemma WeldedIsSkipped(w: Welder, id: PlateId, layers: seq<string>)
    requires FilterPlate(w, id, layers).Welded?
    ensures |FilterPlate(w, id, layers).layers| >= 1
    ensures Skipped(FilterPlate(w, id, layers).layers)
  {
  }

  /**
   * The new list of a welded plate with a non-empty header: the header comes
   * first with the marker appended and is followed by the output's pieces, which
   * join back to the output, so no text of it is lost.
   */
  lemma WeldedWithHeader(w: Welder, id: PlateId, layers: seq<string>, output: string)
    requires !Skipped(layers) && layers[0] != ""
    requires w.tool(CommandArguments(w.executable, w.settings, w.temporaryPath(id)), ToolInput(layers)) == Some(output)
    ensures FilterPlate(w, id, layers).Welded?
    ensures FilterPlate(w, id, layers).layers == [layers[0] + ProcessedMarker] + Split(output, LayerSeparator)
    ensures Join(LayerSeparator, FilterPlate(w, id, layers).layers[1..]) == output
  {
    var pieces := Split(output, LayerSeparator);
    var n := Mark([layers[0]] + pieces);
    assert FilterPlate(w, id, layers) == Welded(n);
    assert n[1..] == pieces;
    JoinSplit(output, LayerSeparator);
  }

  /**
   * The new list of a welded plate with an empty header: the header is dropped and
   * the marker lands on the output's first piece; without the marker the list
   * joins back to the output.
   */
  lemma WeldedWithoutHeader(w: Welder, id: PlateId, layers: seq<string>, output: string)
    requires !Skipped(layers) && layers[0] == ""
    requires w.tool(CommandArguments(w.executable, w.settings, w.temporaryPath(id)), ToolInput(layers)) == Some(output)
    ensures FilterPlate(w, id, layers).Welded?
    ensures var pieces := Split(output, LayerSeparator);
      FilterPlate(w, id, layers).layers == [pieces[0] + ProcessedMarker] + pieces[1..]
    ensures var n := FilterPlate(w, id, layers).layers;
      Join(LayerSeparator, [n[0][..|n[0]| - |ProcessedMarker|]] + n[1..]) == output
  {
    var pieces := Split(output, LayerSeparator);
    var n := Mark(pieces);
    assert FilterPlate(w, id, layers) == Welded(n);
    assert n[0][..|n[0]| - |ProcessedMarker|] == pieces[0];
    assert [pieces[0]] + n[1..] == pieces;
    JoinSplit(output, LayerSeparator);
  }

  /**
   * With a tool that gives back its input unchanged, and no layer after the
   * header holding the separator, the plate comes back as it was except for the
   * marker on its first element. An empty header is dropped, so the marker then
   * lands on the first layer after it and the plate is one element shorter.
   * The tool here is the whole write, run and read trip: the text-mode read
   * turns `\r\n` into `\n`, so a binary that leaves the file alone is not an
   * identity tool on text holding `\r`.
   */
  lemma IdentityToolRoundTrip(w: Welder, id: PlateId, layers: seq<string>)
    requires forall args, text :: w.tool(args, text) == Some(text)
    requires !Skipped(layers)
    requires forall k :: 1 <= k < |layers| ==> !Contains(layers[k], LayerSeparator)
    ensures FilterPlate(w, id, layers).Welded?
    ensures layers[0] != "" ==> FilterPlate(w, id, layers).layers == [layers[0] + ProcessedMarker] + layers[1..]
    ensures layers[0] == "" ==> FilterPlate(w, id, layers).layers == [layers[1] + ProcessedMarker] + layers[2..]
  {
    var input := ToolInput(layers);
    assert w.tool(CommandArguments(w.executable, w.settings, w.temporaryPath(id)), input) == Some(input);
    LayerSeparatorFirstCharUnique();
    var rest := layers[1..];
    assert forall k :: 0 <= k < |rest| ==> !Contains(rest[k], LayerSeparator) by {
      assert forall k :: 0 <= k < |rest| ==> rest[k] == layers[k + 1];
    }
    SplitJoin(rest, LayerSeparator);
    if layers[0] != "" {
      WeldedWithHeader(w, id, layers, input);
    } else {
      WeldedWithoutHeader(w, id, layers, input);
      assert rest[1..] == layers[2..];
    }
  }

  /**
   * The header is not part of what the tool sees: two plates that differ only in a
   * non-empty header give the tool the same input, and (for the same tool answer)
   * end with the same layers after their own marked headers.
   */
  lemma HeaderIsolated(w: Welder, id: PlateId, h1: string, h2: string, rest: seq<string>)
    requires h1 != "" && h2 != "" && |rest| >= 1
    requires !Contains(h1, ProcessedMarker) && !Contains(h2, ProcessedMarker)
    ensures ToolInput([h1] + rest) == ToolInput([h2] + rest) == Join(LayerSeparator, rest)
    ensures FilterPlate(w, id, [h1] + rest).ToolFailed? <==> FilterPlate(w, id, [h2] + rest).ToolFailed?
    ensures FilterPlate(w, id, [h1] + rest).Welded? ==>
      var n1, n2 := FilterPlate(w, id, [h1] + rest).layers, FilterPlate(w, id, [h2] + rest).layers;
      n1[0] == h1 + ProcessedMarker && n2[0] == h2 + ProcessedMarker && |n1| == |n2| && n1[1..] == n2[1..]
  {
    assert ([h1] + rest)[1..] == rest && ([h2] + rest)[1..] == rest;
  }

  /**
   * A plate the tool failed on has lost its header. Left with one layer, it is
   * skipped by every later run and never gets its header back; left with more,
   * the next run pops its first real layer as the header.
   */
  lemma FailedPlateNextRun(w: Welder, w': Welder, id: PlateId, layers: seq<string>)
    requires FilterPlate(w, id, layers).ToolFailed?
    ensures PlateAfter(w, id, layers) == layers[1..]
    ensures |layers| == 2 ==> FilterPlate(w', id, PlateAfter(w, id, layers)).TooFewLayers?
    ensures |layers| > 2 && !Contains(layers[1], ProcessedMarker) ==>
              !Skipped(PlateAfter(w, id, layers)) && ToolInput(PlateAfter(w, id, layers)) == Join(LayerSeparator, layers[2..])
  {
    assert layers[1..][1..] == layers[2..];
  }

  // ---------------------------------------------------------------------------
  // The loop over the plates
  // ---------------------------------------------------------------------------

  /** A plate that is skipped keeps its list through the whole loop, however the loop ends. */
  lemma {:induction false} SkippedPlateUnchanged(w: Welder, order: seq<PlateId>, plates: map<PlateId, seq<string>>, changed: bool, x: PlateId)
    requires forall k :: 0 <= k < |order| ==> order[k] in plates
    requires x in plates && Skipped(plates[x])
    ensures FilterPlates(w, order, plates, changed).plates[x] == plates[x]
    decreases |order|
  {
    if |order| > 0 {
      var id := order[0];
      SkippedPlate(w, id, plates[id]);
      match FilterPlate(w, id, plates[id])
      case TooFewLayers => SkippedPlateUnchanged(w, order[1..], plates, changed, x);
      case AlreadyProcessed => SkippedPlateUnchanged(w, order[1..], plates, changed, x);
      case Welded(layers) => SkippedPlateUnchanged(w, order[1..], plates[id := layers], true, x);
      case ToolFailed(rest) =>
    }
  }

  /** A finished loop leaves every plate it visited in a state a later run skips. */
  lemma {:induction false} FinishedRunSettles(w: Welder, order: seq<PlateId>, plates: map<PlateId, seq<string>>, changed: bool)
    requires forall k :: 0 <= k < |order| ==> order[k] in plates
    requires FilterPlates(w, order, plates, changed).outcome.Finished?
    ensures forall k :: 0 <= k < |order| ==> Skipped(FilterPlates(w, order, plates, changed).plates[order[k]])
    decreases |order|
  {
    if |order| > 0 {
      var id := order[0];
      var next, changed' := plates, changed;
      if Skipped(plates[id]) {
        SkippedStep(w, order, plates, changed);
      } else if FilterPlate(w, id, plates[id]).ToolFailed? {
        FailedStep(w, order, plates, changed);
        return;
      } else {
        WeldedStep(w, order, plates, changed);
        WeldedIsSkipped(w, id, plates[id]);
        next, changed' := plates[id := PlateAfter(w, id, plates[id])], true;
      }
      FinishedRunSettles(w, order[1..], next, changed');
      SkippedPlateUnchanged(w, order[1..], next, changed', id);
      assert forall k :: 1 <= k < |order| ==> order[k] == order[1..][k - 1];
    }
  }

  /** When every plate would be skipped, the loop changes nothing and leaves the flag as it was. */
  lemma {:induction false} SettledRunIsIdentity(w: Welder, order: seq<PlateId>, plates: map<PlateId, seq<string>>, changed: bool)
    requires forall k :: 0 <= k < |order| ==> order[k] in plates
    requires forall k :: 0 <= k < |order| ==> Skipped(plates[order[k]])
    ensures FilterPlates(w, order, plates, changed) == Run(plates, Finished(changed))
    decreases |order|
  {
    if |order| > 0 {
      SkippedPlate(w, order[0], plates[order[0]]);
      SettledRunIsIdentity(w, order[1..], plates, changed);
    }
  }

  /**
   * Running the filter again over the result of a finished run, with any options
   * and any tool, changes nothing and does not set `dict_changed`.
   */
  lemma Idempotent(w: Welder, w': Welder, order: seq<PlateId>, plates: map<PlateId, seq<string>>)
    requires forall k :: 0 <= k < |order| ==> order[k] in plates
    requires FilterPlates(w, order, plates, false).outcome.Finished?
    ensures var once := FilterPlates(w, order, plates, false).plates;
      FilterPlates(w', order, once, false) == Run(once, Finished(false))
  {
    FinishedRunSettles(w, order, plates, false);
    SettledRunIsIdentity(w', order, FilterPlates(w, order, plates, false).plates, false);
  }

  /** A finished loop sets `dict_changed` exactly when some plate in it was not skipped. */
  lemma {:induction false} DictChangedIff(w: Welder, order: seq<PlateId>, plates: map<PlateId, seq<string>>, changed: bool)
    requires forall k :: 0 <= k < |order| ==> order[k] in plates
    requires FilterPlates(w, order, plates, changed).outcome.Finished?
    ensures FilterPlates(w, order, plates, changed).outcome.dictChanged
        <==> changed || exists k :: 0 <= k < |order| && !Skipped(plates[order[k]])
    decreases |order|
  {
    if |order| > 0 {
      var id := order[0];
      SkippedPlate(w, id, plates[id]);
      match FilterPlate(w, id, plates[id])
      case TooFewLayers =>
        DictChangedIff(w, order[1..], plates, changed);
        assert forall k :: 1 <= k < |order| ==> order[k] == order[1..][k - 1];
      case AlreadyProcessed =>
        DictChangedIff(w, order[1..], plates, changed);
        assert forall k :: 1 <= k < |order| ==> order[k] == order[1..][k - 1];
      case Welded(layers) =>
        DictChangedIff(w, order[1..], plates[id := layers], true);
      case ToolFailed(_) =>
    }
  }

  // One turn of the loop, in its three cases: what visiting the first plate in `order` does.

  /** A skipped plate: the loop moves on with the dictionary and the flag unchanged. */
  lemma SkippedStep(w: Welder, order: seq<PlateId>, plates: map<PlateId, seq<string>>, changed: bool)
    requires |order| > 0 && forall k :: 0 <= k < |order| ==> order[k] in plates
    requires Skipped(plates[order[0]])
    ensures FilterPlates(w, order, plates, changed) == FilterPlates(w, order[1..], plates, changed)
  {
    SkippedPlate(w, order[0], plates[order[0]]);
  }

  /** A plate the tool fails on: the loop stops there, with the plate's list header-less. */
  lemma FailedStep(w: Welder, order: seq<PlateId>, plates: map<PlateId, seq<string>>, changed: bool)
    requires |order| > 0 && forall k :: 0 <= k < |order| ==> order[k] in plates
    requires FilterPlate(w, order[0], plates[order[0]]).ToolFailed?
    ensures FilterPlates(w, order, plates, changed)
         == Run(plates[order[0] := plates[order[0]][1..]], ToolError(order[0]))
  {
  }

  /** A processed plate: its new list is stored and `dict_changed` becomes true. */
  lemma WeldedStep(w: Welder, order: seq<PlateId>, plates: map<PlateId, seq<string>>, changed: bool)
    requires |order| > 0 && forall k :: 0 <= k < |order| ==> order[k] in plates
    requires !Skipped(plates[order[0]]) && !FilterPlate(w, order[0], plates[order[0]]).ToolFailed?
    ensures FilterPlate(w, order[0], plates[order[0]]).Welded?
    ensures FilterPlates(w, order, plates, changed)
         == FilterPlates(w, order[1..], plates[order[0] := PlateAfter(w, order[0], plates[order[0]])], true)
  {
  }

  /** Plates that are not in the iteration order are never touched. */
  lemma {:induction false} OutsideOrderUnchanged(w: Welder, order: seq<PlateId>, plates: map<PlateId, seq<string>>, changed: bool, x: PlateId)
    requires forall k :: 0 <= k < |order| ==> order[k] in plates
    requires x in plates && forall k :: 0 <= k < |order| ==> order[k] != x
    ensures FilterPlates(w, order, plates, changed).plates[x] == plates[x]
    decreases |order|
  {
    if |order| > 0 {
      var id := order[0];
      if Skipped(plates[id]) {
        SkippedStep(w, order, plates, changed);
        OutsideOrderUnchanged(w, order[1..], plates, changed, x);
      } else if FilterPlate(w, id, plates[id]).ToolFailed? {
        FailedStep(w, order, plates, changed);
      } else {
        WeldedStep(w, order, plates, changed);
        OutsideOrderUnchanged(w, order[1..], plates[id := PlateAfter(w, id, plates[id])], true, x);
      }
    }
  }

  /**
   * The position in `order` of the first plate on which the tool fails, or the
   * number of plates when it fails on none. Plates are judged by their lists in
   * `plates`, which are the lists the loop sees when the keys are distinct.
   */
  function FailureIndex(w: Welder, order: seq<PlateId>, plates: map<PlateId, seq<string>>): (k: nat)
    requires forall j :: 0 <= j < |order| ==> order[j] in plates
    ensures k <= |order|
    ensures forall j :: 0 <= j < k ==> !FilterPlate(w, order[j], plates[order[j]]).ToolFailed?
    ensures k < |order| ==> FilterPlate(w, order[k], plates[order[k]]).ToolFailed?
    decreases |order|
  {
    if |order| == 0 then 0
    else if FilterPlate(w, order[0], plates[order[0]]).ToolFailed? then 0
    else
      var k := FailureIndex(w, order[1..], plates);
      assert forall j :: 1 <= j < |order| ==> order[j] == order[1..][j - 1];
      1 + k
  }

  /** `FailureIndex` only looks at the plates in `order`. */
  lemma {:induction false} FailureIndexFrame(w: Welder, order: seq<PlateId>, p1: map<PlateId, seq<string>>, p2: map<PlateId, seq<string>>)
    requires forall j :: 0 <= j < |order| ==> order[j] in p1 && order[j] in p2 && p1[order[j]] == p2[order[j]]
    ensures FailureIndex(w, order, p1) == FailureIndex(w, order, p2)
    decreases |order|
  {
    if |order| > 0 {
      assert forall j :: 1 <= j < |order| ==> order[j] == order[1..][j - 1];
      FailureIndexFrame(w, order[1..], p1, p2);
    }
  }

  /**
   * The loop finishes exactly when the tool fails on no plate; otherwise it stops
   * at the first plate it fails on.
   */
  lemma {:induction false} RunOutcome(w: Welder, order: seq<PlateId>, plates: map<PlateId, seq<string>>, changed: bool)
    requires forall j :: 0 <= j < |order| ==> order[j] in plates
    requires Distinct(order)
    ensures FilterPlates(w, order, plates, changed).outcome.Finished? <==> FailureIndex(w, order, plates) == |order|
    ensures FilterPlates(w, order, plates, changed).outcome.ToolError? ==>
              FilterPlates(w, order, plates, changed).outcome.plate == order[FailureIndex(w, order, plates)]
    decreases |order|
  {
    if |order| > 0 {
      var id, tail := order[0], order[1..];
      assert forall j :: 1 <= j < |order| ==> order[j] == tail[j - 1] && order[j] != id;
      if Skipped(plates[id]) {
        SkippedStep(w, order, plates, changed);
        SkippedPlate(w, id, plates[id]);
        RunOutcome(w, tail, plates, changed);
      } else if !FilterPlate(w, id, plates[id]).ToolFailed? {
        WeldedStep(w, order, plates, changed);
        var next := plates[id := PlateAfter(w, id, plates[id])];
        FailureIndexFrame(w, tail, plates, next);
        RunOutcome(w, tail, next, true);
      } else {
        FailedStep(w, order, plates, changed);
      }
    }
  }

  /**
   * Every plate up to and including the one the tool fails on holds what the
   * filter made of it: a skipped plate its old list, a processed plate its new
   * list, and the failing plate its list without the header.
   */
  lemma {:induction false} VisitedPlates(w: Welder, order: seq<PlateId>, plates: map<PlateId, seq<string>>, changed: bool)
    requires forall j :: 0 <= j < |order| ==> order[j] in plates
    requires Distinct(order)
    ensures forall j :: 0 <= j < |order| && j <= FailureIndex(w, order, plates) ==>
              FilterPlates(w, order, plates, changed).plates[order[j]] == PlateAfter(w, order[j], plates[order[j]])
    decreases |order|
  {
    if |order| > 0 {
      var id, tail := order[0], order[1..];
      assert forall j :: 1 <= j < |order| ==> order[j] == tail[j - 1] && order[j] != id;
      if Skipped(plates[id]) {
        SkippedStep(w, order, plates, changed);
        SkippedPlate(w, id, plates[id]);
        VisitedPlates(w, tail, plates, changed);
        OutsideOrderUnchanged(w, tail, plates, changed, id);
      } else if !FilterPlate(w, id, plates[id]).ToolFailed? {
        WeldedStep(w, order, plates, changed);
        var next := plates[id := PlateAfter(w, id, plates[id])];
        FailureIndexFrame(w, tail, plates, next);
        VisitedPlates(w, tail, next, true);
        OutsideOrderUnchanged(w, tail, next, true, id);
      } else {
        FailedStep(w, order, plates, changed);
      }
    }
  }

  /** The plates after the one the tool fails on are not visited: they keep their lists. */
  lemma {:induction false} UnvisitedPlates(w: Welder, order: seq<PlateId>, plates: map<PlateId, seq<string>>, changed: bool)
    requires forall j :: 0 <= j < |order| ==> order[j] in plates
    requires Distinct(order)
    ensures forall j :: FailureIndex(w, order, plates) < j < |order| ==>
              FilterPlates(w, order, plates, changed).plates[order[j]] == plates[order[j]]
    decreases |order|
  {
    if |order| > 0 {
      var id, tail := order[0], order[1..];
      assert forall j :: 1 <= j < |order| ==> order[j] == tail[j - 1] && order[j] != id;
      if Skipped(plates[id]) {
        SkippedStep(w, order, plates, changed);
        SkippedPlate(w, id, plates[id]);
        UnvisitedPlates(w, tail, plates, changed);
      } else if !FilterPlate(w, id, plates[id]).ToolFailed? {
        WeldedStep(w, order, plates, changed);
        var next := plates[id := PlateAfter(w, id, plates[id])];
        FailureIndexFrame(w, tail, plates, next);
        UnvisitedPlates(w, tail, next, true);
      } else {
        FailedStep(w, order, plates, changed);
      }
    }
  }

  // ---------------------------------------------------------------------------
  // The scene's dictionary and the hook itself
  // ---------------------------------------------------------------------------

  /** The options the plugin reads from the global container stack. */
  datatype GlobalStack = GlobalStack(arcwelderEnable: bool, settings: Settings)

  /**
   * The scene's `gcode_dict`: plate id to list of layers, with the order in which
   * the dictionary iterates its keys. The filter only assigns to existing keys, so
   * the order never changes.
   */
  class GcodeDict {
    var plates: map<PlateId, seq<string>>
    var order: seq<PlateId>

    ghost predicate Valid()
      reads this
    {
      && Distinct(order)
      && (forall id :: id in order <==> id in plates)
      && (forall k :: 0 <= k < |order| ==> order[k] in plates)
    }

    constructor (plates: map<PlateId, seq<string>>, order: seq<PlateId>)
      requires Distinct(order) && forall id :: id in order <==> id in plates
      ensures Valid() && this.plates == plates && this.order == order
    {
      this.plates := plates;
      this.order := order;
    }

    /** `gcode_dict[plate_id] = gcode_list` for a plate that is already in the dictionary. */
    method Assign(id: PlateId, layers: seq<string>)
      requires Valid() && id in plates
      modifies this
      ensures Valid() && order == old(order) && plates == old(plates)[id := layers]
    {
      plates := plates[id := layers];
    }
  }

  /**
   * ArcWelderPlugin.py, lines 186-233, for a plate that is neither short nor marked: pop the header,
   * run the tool, and store the split, re-headed and marked list. `failed` is
   * one of the steps of lines 193-226 raising; the plate has then lost its header.
   */
  method WeldPlate(d: GcodeDict, w: Welder, id: PlateId) returns (failed: bool)
    requires d.Valid() && id in d.plates && !Skipped(d.plates[id])
    modifies d
    ensures d.Valid() && d.order == old(d.order)
    ensures failed == FilterPlate(w, id, old(d.plates[id])).ToolFailed?
    ensures d.plates == old(d.plates)[id := PlateAfter(w, id, old(d.plates[id]))]
  {
    var gcodeList := d.plates[id];
    // pop(0) changes the list object that the dictionary holds
    var header := gcodeList[0];
    gcodeList := gcodeList[1..];
    d.Assign(id, gcodeList);
    var joined := Join(LayerSeparator, gcodeList);
    var args := BuildCommandArguments(w.executable, w.settings, w.temporaryPath(id));
    var result := w.tool(args, joined);
    if result.None? {
      return true;
    }
    gcodeList := Split(result.value, LayerSeparator);
    if header != "" {
      gcodeList := [header] + gcodeList;
    }
    gcodeList := gcodeList[0 := gcodeList[0] + ProcessedMarker];
    d.Assign(id, gcodeList);
    return false;
  }

  /**
   * ArcWelderPlugin.py, lines 171-233: `dict_changed` starts false and the plates
   * are visited in the dictionary's order. A step of lines 193-226 raising is the ToolError
   * outcome: the loop stops there, leaving the dictionary as far as it got.
   */
  method FilterAllPlates(d: GcodeDict, w: Welder) returns (outcome: Outcome)
    requires d.Valid()
    modifies d
    ensures d.Valid() && d.order == old(d.order)
    ensures Run(d.plates, outcome) == FilterPlates(w, old(d.order), old(d.plates), false)
  {
    ghost var plates0 := d.plates;
    var dictChanged := false;
    var i := 0;
    while i < |d.order|
      invariant d.Valid() && d.order == old(d.order) && 0 <= i <= |d.order|
      invariant FilterPlates(w, d.order[i..], d.plates, dictChanged) == FilterPlates(w, d.order, plates0, false)
    {
      var id := d.order[i];
      assert d.order[i..][0] == id && d.order[i..][1..] == d.order[i + 1..];
      var gcodeList := d.plates[id];
      if |gcodeList| < 2 || Contains(gcodeList[0], ProcessedMarker) {
        SkippedStep(w, d.order[i..], d.plates, dictChanged);
        i := i + 1;
        continue;
      }
      ghost var before := d.plates;
      var failed := WeldPlate(d, w, id);
      if failed {
        FailedStep(w, d.order[i..], before, dictChanged);
        return ToolError(id);
      }
      WeldedStep(w, d.order[i..], before, dictChanged);
      dictChanged := true;
      i := i + 1;
    }
    assert d.order[i..] == [];
    return Finished(dictChanged);
  }

  /**
   * `_filterGcode`: the three early returns, then the loop over the plates.
   */
  method FilterGcode(d: GcodeDict, stack: Option<GlobalStack>, executable: string, tool: Tool,
                     temporaryPath: PlateId -> string)
    returns (outcome: Outcome)
    requires d.Valid()
    modifies d
    ensures d.Valid() && d.order == old(d.order)
    ensures stack.None? ==> outcome == NoGlobalStack && d.plates == old(d.plates)
    ensures stack.Some? && !stack.value.arcwelderEnable ==> outcome == NotEnabled && d.plates == old(d.plates)
    ensures stack.Some? && stack.value.arcwelderEnable && old(d.plates) == map[] ==>
              outcome == NoGcode && d.plates == old(d.plates)
    ensures stack.Some? && stack.value.arcwelderEnable && old(d.plates) != map[] ==>
              Run(d.plates, outcome)
              == FilterPlates(Welder(executable, stack.value.settings, tool, temporaryPath), old(d.order), old(d.plates), false)
  {
    if stack.None? {
      return NoGlobalStack;
    }
    if !stack.value.arcwelderEnable {
      return NotEnabled;
    }
    if d.plates == map[] {
      return NoGcode;
    }
    outcome := FilterAllPlates(d, Welder(executable, stack.value.settings, tool, temporaryPath));
  }
}
