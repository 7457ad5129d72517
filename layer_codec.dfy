/**
 * The in-band text protocol of the G-code filter: the separator that flattens a
 * plate's layers into one text for the ArcWelder tool (Python's `str.join`), the
 * split that recovers layers from the tool's output (Python's `str.split` with a
 * non-empty separator), and the marker that records that a plate was processed.
 */
module LayerCodec {
  import opened Wrappers
  import opened Text

  /** Separator written between layers in the text handed to the tool. */
  const LayerSeparator: string := ";ARCWELDERPLUGIN_GCODELIST_SEPARATOR\n"

  /** Marker appended to the first layer of a processed plate. */
  const ProcessedMarker: string := ";ARCWELDERPROCESSED\n"

  /** `sep.join(parts)`. */
  function Join(sep: string, parts: seq<string>): string
    decreases |parts|
  {
    if |parts| == 0 then ""
    else if |parts| == 1 then parts[0]
    else parts[0] + sep + Join(sep, parts[1..])
  }

  /**
   * `s.split(sep)` for a non-empty `sep`: the pieces between the leftmost
   * non-overlapping occurrences of `sep`, scanning from the left. There is always
   * at least one piece, and no piece contains the separator.
   */
  function Split(s: string, sep: string): (r: seq<string>)
    requires |sep| > 0
    ensures |r| >= 1
    ensures forall k :: 0 <= k < |r| ==> !Contains(r[k], sep)
    decreases |s|
  {
    match IndexOf(s, sep)
    case None => [s]
    case Some(i) =>
      var rest := Split(s[i + |sep|..], sep);
      FirstPieceFree(s, sep, i);
      [s[..i]] + rest
  }

  /** The text before the leftmost occurrence of `sep` does not contain `sep`. */
  lemma FirstPieceFree(s: string, sep: string, i: nat)
    requires |sep| > 0
    requires IndexOf(s, sep) == Some(i)
    ensures !Contains(s[..i], sep)
  {
    if Contains(s[..i], sep) {
      var j := IndexOf(s[..i], sep).value;
      assert s[..i][j..j + |sep|] == s[j..j + |sep|];
      assert OccursAt(s, sep, j);
      assert false;
    }
  }

  /** One step of `Split` at the leftmost occurrence of the separator. */
  lemma SplitUnfold(s: string, sep: string, i: nat)
    requires |sep| > 0
    requires IndexOf(s, sep) == Some(i)
    ensures Split(s, sep) == [s[..i]] + Split(s[i + |sep|..], sep)
  {
  }

  /** Joining a part in front of a non-empty list puts one separator between them. */
  lemma JoinCons(sep: string, x: string, parts: seq<string>)
    requires |parts| >= 1
    ensures Join(sep, [x] + parts) == x + sep + Join(sep, parts)
  {
    assert ([x] + parts)[1..] == parts;
  }

  /** Joining the pieces of a split with the same separator gives back the text. */
  lemma {:induction false} JoinSplit(s: string, sep: string)
    requires |sep| > 0
    ensures Join(sep, Split(s, sep)) == s
    decreases |s|
  {
    var r := IndexOf(s, sep);
    if r.Some? {
      var i := r.value;
      var rest := s[i + |sep|..];
      JoinSplit(rest, sep);
      var pieces := Split(rest, sep);
      SplitUnfold(s, sep, i);
      JoinCons(sep, s[..i], pieces);
      assert s[i..i + |sep|] == sep;
      assert s == s[..i] + sep + rest;
    }
  }

  /**
   * The first character of `sep` never recurs inside it; so an occurrence of `sep`
   * cannot start inside a piece and run on into the separator that follows it.
   */
  predicate FirstCharUnique(sep: string)
  {
    |sep| > 0 && forall k :: 0 < k < |sep| ==> sep[k] != sep[0]
  }

  /** The plugin's separator has that property. */
  lemma LayerSeparatorFirstCharUnique()
    ensures FirstCharUnique(LayerSeparator)
  {
  }

  /** In `a + sep + b`, with `a` free of `sep`, the leftmost occurrence of `sep` is the one after `a`. */
  lemma JoinedIndex(a: string, sep: string, b: string)
    requires FirstCharUnique(sep)
    requires !Contains(a, sep)
    ensures IndexOf(a + sep + b, sep) == Some(|a|)
  {
    var s := a + sep + b;
    assert s[|a|..|a| + |sep|] == sep;
    assert OccursAt(s, sep, |a|);
    forall j | 0 <= j < |a|
      ensures !OccursAt(s, sep, j)
    {
      NoEarlyOccurrence(a, sep, b, j);
    }
  }

  /** No occurrence of `sep` in `a + sep + b` starts inside `a`, when `a` is free of `sep`. */
  lemma NoEarlyOccurrence(a: string, sep: string, b: string, j: nat)
    requires FirstCharUnique(sep)
    requires !Contains(a, sep)
    requires j < |a|
    ensures !OccursAt(a + sep + b, sep, j)
  {
    var s := a + sep + b;
    if j + |sep| <= |a| {
      assert s[j..j + |sep|] == a[j..j + |sep|];
      assert !OccursAt(a, sep, j);
    } else {
      var m := |a| - j;
      assert s[j + m] == sep[0];
      assert j + |sep| <= |s| ==> s[j..j + |sep|][m] != sep[m];
    }
  }

  /**
   * Splitting a join gives back the parts, when no part contains the separator and
   * the separator's first character does not recur in it.
   */
  lemma {:induction false} SplitJoin(parts: seq<string>, sep: string)
    requires FirstCharUnique(sep)
    requires |parts| >= 1
    requires forall k :: 0 <= k < |parts| ==> !Contains(parts[k], sep)
    ensures Split(Join(sep, parts), sep) == parts
    decreases |parts|
  {
    if |parts| == 1 {
      assert Join(sep, parts) == parts[0];
    } else {
      var a, b := parts[0], Join(sep, parts[1..]);
      var s := a + sep + b;
      JoinedIndex(a, sep, b);
      assert s[..|a|] == a;
      assert s[|a| + |sep|..] == b;
      SplitJoin(parts[1..], sep);
      assert Split(s, sep) == [a] + parts[1..];
    }
  }
}
