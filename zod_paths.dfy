/**
 * How the form wrapper names the fields a schema rejected: the dotted path of every issue, and
 * the map from formatted field key to message that the forms display, where array indexes are
 * written in brackets after the field they index.
 */
module ZodPaths {
  import opened Common
  import opened Text
  import opened InputHelpers

  /** One step of an issue's path: an object key or an array index. */
  datatype PathSegment = Key(name: string) | Index(n: nat)

  /** A rejected value: where it is and what is wrong with it. */
  datatype Issue = Issue(path: seq<PathSegment>, message: string)

  function SegmentText(p: PathSegment): string
  {
    match p
    case Key(k) => k
    case Index(n) => NatToString(n)
  }

  function SegmentTexts(path: seq<PathSegment>): (r: seq<string>)
    ensures |r| == |path| && forall i :: 0 <= i < |path| ==> r[i] == SegmentText(path[i])
  {
    seq(|path|, i requires 0 <= i < |path| => SegmentText(path[i]))
  }

  /** createZodErrors: the path of an issue, every step (indexes too) joined with '.'. */
  function JoinedPath(path: seq<PathSegment>): string
  {
    Join(SegmentTexts(path), ".")
  }

  /** When no key holds a '.', the joined path splits back into the steps it was made from. */
  lemma JoinedPathSplits(path: seq<PathSegment>)
    requires path != []
    requires forall i :: 0 <= i < |path| && path[i].Key? ==> '.' !in path[i].name
    ensures Split(JoinedPath(path), '.') == SegmentTexts(path)
  {
    var texts := SegmentTexts(path);
    forall k | 0 <= k < |texts|
      ensures '.' !in texts[k]
    {
      if path[k].Index? {
        var d := NatToString(path[k].n);
        assert forall j :: 0 <= j < |d| ==> IsDigit(d[j]);
      }
    }
    SplitJoin(texts, '.');
  }

  /**
   * One step of the reduce in getZodValidationsResult: a key is pushed; an index is appended in
   * brackets to the last segment popped off the accumulator, which is "undefined" when the
   * accumulator is empty.
   */
  function Push(acc: seq<string>, seg: PathSegment): (r: seq<string>)
    ensures r != []
    ensures seg.Key? ==> |r| == |acc| + 1 && r[..|acc|] == acc && r[|acc|] == seg.name
    ensures seg.Index? ==> |r| == (if acc == [] then 1 else |acc|) && r[..|r| - 1] == (if acc == [] then [] else acc[..|acc| - 1])
    ensures seg.Index? ==> r[|r| - 1] == (if acc == [] then "undefined" else acc[|acc| - 1]) + "[" + NatToString(seg.n) + "]"
  {
    match seg
    case Key(k) => acc + [k]
    case Index(n) =>
      var last := if acc == [] then "undefined" else acc[|acc| - 1];
      var init := if acc == [] then [] else acc[..|acc| - 1];
      init + [last + ("[" + NatToString(n) + "]")]
  }

  /** The reduce over a whole path, from the empty accumulator. */
  function Segments(path: seq<PathSegment>): (r: seq<string>)
    ensures path != [] ==> r != []
  {
    if path == [] then [] else Push(Segments(path[..|path| - 1]), path[|path| - 1])
  }

  /** The key an issue is stored under: the segments joined with '.'. */
  function ErrorKey(path: seq<PathSegment>): string
  {
    Join(Segments(path), ".")
  }

  /** The names of the key steps of a path, in order. */
  function KeyNames(path: seq<PathSegment>): seq<string>
  {
    if path == [] then []
    else KeyNames(path[..|path| - 1]) + (if path[|path| - 1].Key? then [path[|path| - 1].name] else [])
  }

  /** An index step after a key is written in brackets after it; the next key is a new dotted segment. */
  lemma KeyIndexKey(first: string, n: nat, second: string)
    ensures ErrorKey([Key(first), Index(n), Key(second)]) == first + "[" + NatToString(n) + "]" + "." + second
  {
    var g := "[" + NatToString(n) + "]";
    KeyIndexKeySegments(first, n, second);
    var segs := [first + g, second];
    assert segs[1..] == [second];
    assert Join(segs, ".") == (first + g) + "." + second;
  }

  lemma KeyIndexKeySegments(first: string, n: nat, second: string)
    ensures Segments([Key(first), Index(n), Key(second)]) == [first + ("[" + NatToString(n) + "]"), second]
  {
    var p1 := [Key(first)];
    var p2 := p1 + [Index(n)];
    SegmentsSnoc([], Key(first));
    assert [] + [Key(first)] == p1;
    SegmentsSnoc(p1, Index(n));
    SegmentsSnoc(p2, Key(second));
    assert p2 + [Key(second)] == [Key(first), Index(n), Key(second)];
  }

  /** The reduce takes one more step for one more segment. */
  lemma SegmentsSnoc(path: seq<PathSegment>, seg: PathSegment)
    ensures Segments(path + [seg]) == Push(Segments(path), seg)
  {
    assert (path + [seg])[..|path|] == path;
  }

  /** So the quantity of the first item is reported under "items[0].qty". */
  lemma ErrorKeyExample()
    ensures ErrorKey([Key("items"), Index(0), Key("qty")]) == "items[0].qty"
  {
    KeyIndexKey("items", 0, "qty");
    ItemsQtyText();
  }

  lemma ItemsQtyText()
    ensures "items" + "[" + NatToString(0) + "]" + "." + "qty" == "items[0].qty"
  {
    assert NatToString(0) == "0";
  }

  /** An index with no key before it is written after "undefined". */
  lemma LeadingIndex(n: nat)
    ensures ErrorKey([Index(n)]) == "undefined[" + NatToString(n) + "]"
  {
    var p := [Index(n)];
    var d := NatToString(n);
    assert p[..0] == [];
    assert Segments(p) == ["undefined" + ("[" + d + "]")];
    assert "undefined" + ("[" + d + "]") == "undefined[" + d + "]";
  }

  /** A path of keys alone is stored under the same text createZodErrors reports. */
  lemma KeysOnlyAgree(path: seq<PathSegment>)
    requires forall i :: 0 <= i < |path| ==> path[i].Key?
    ensures ErrorKey(path) == JoinedPath(path)
    ensures Segments(path) == SegmentTexts(path)
  {
    KeySegments(path);
  }

  /** For a path of keys alone the reduce pushes each key as its own segment. */
  lemma {:induction false} KeySegments(path: seq<PathSegment>)
    requires forall i :: 0 <= i < |path| ==> path[i].Key?
    ensures Segments(path) == SegmentTexts(path)
  {
    if path != [] {
      var p := path[..|path| - 1];
      KeySegments(p);
      var texts, name := SegmentTexts(p), path[|path| - 1].name;
      assert Segments(path) == texts + [name];
      assert SegmentTexts(path) == texts + [name] by {
        forall i | 0 <= i < |path|
          ensures SegmentTexts(path)[i] == (texts + [name])[i]
        {
          if i < |p| {
            assert p[i] == path[i];
          }
        }
      }
    }
  }

  /**
   * Stripping the indexes from the key of an issue whose path starts with a key gives its key
   * names joined with '.', the plain field name hasMatchingKeys compares against.
   */
  lemma StrippedErrorKey(path: seq<PathSegment>)
    requires path == [] || path[0].Key?
    requires forall i :: 0 <= i < |path| && path[i].Key? ==> '[' !in path[i].name
    ensures StripIndexes(ErrorKey(path)) == Join(KeyNames(path), ".")
  {
    StrippedJoin(path, ".");
  }

  /** The same for segments joined by any separator that opens no group and is not a digit. */
  lemma {:induction false} StrippedJoin(path: seq<PathSegment>, sep: string)
    requires path == [] || path[0].Key?
    requires forall i :: 0 <= i < |path| && path[i].Key? ==> '[' !in path[i].name
    requires sep != [] && '[' !in sep && !IsDigit(sep[0])
    ensures StrippedAs(Segments(path), KeyNames(path), sep)
  {
    if path != [] {
      var p := path[..|path| - 1];
      StrippedJoin(p, sep);
      var segments, names := Segments(p), KeyNames(p);
      match path[|path| - 1]
      case Key(k) =>
        assert '[' !in k;
        KeyStep(segments, names, k, sep);
        assert Segments(path) == segments + [k];
        assert KeyNames(path) == names + [k];
      case Index(n) =>
        assert p != [];
        IndexStep(segments, names, n, sep);
        assert Segments(path) == segments[..|segments| - 1] + [segments[|segments| - 1] + ("[" + NatToString(n) + "]")];
        assert KeyNames(path) == names;
    }
  }

  /**
   * The joined segments leave no group open and strip to the joined names, and there are
   * segments exactly when there are names.
   */
  predicate StrippedAs(segments: seq<string>, names: seq<string>, sep: string)
  {
    && StripIndexes(Join(segments, sep)) == Join(names, sep)
    && NoOpenGroup(Join(segments, sep))
    && (segments == [] <==> names == [])
  }

  /** Pushing a key keeps the segments stripping to the names, the key added to both. */
  lemma KeyStep(segments: seq<string>, names: seq<string>, k: string, sep: string)
    requires StrippedAs(segments, names, sep)
    requires '[' !in k && sep != [] && '[' !in sep && !IsDigit(sep[0])
    ensures StrippedAs(segments + [k], names + [k], sep)
  {
    if segments == [] {
      StripWithoutBrackets(k);
      assert segments + [k] == [k] && names + [k] == [k];
    } else {
      var tail := sep + k;
      var j := Join(segments, sep);
      var jn := Join(names, sep);
      assert '[' !in tail && tail[0] == sep[0];
      JoinSnoc(segments, k, sep);
      JoinSnoc(names, k, sep);
      assert j + sep + k == j + tail;
      assert jn + sep + k == jn + tail;
      AppendPlain(j, jn, tail);
    }
  }

  /** Appending an index group to the last segment keeps the segments stripping to the same names. */
  lemma IndexStep(segments: seq<string>, names: seq<string>, n: nat, sep: string)
    requires StrippedAs(segments, names, sep) && segments != []
    ensures StrippedAs(segments[..|segments| - 1] + [segments[|segments| - 1] + ("[" + NatToString(n) + "]")], names, sep)
  {
    var g := "[" + NatToString(n) + "]";
    var j := Join(segments, sep);
    JoinExtendLast(segments, g, sep);
    StripSplits(j, g);
    StripDropsIndex(n, "");
    assert g + "" == g;
    assert NoOpenGroup(g) by {
      assert !AllDigits(g[1..]) by { assert g[1..][|g| - 2] == ']'; }
    }
    NoOpenGroupAppend(j, g, |g| - 1);
  }

  /** Appending to the last part appends to the join. */
  lemma JoinExtendLast(parts: seq<string>, g: string, sep: string)
    requires parts != []
    ensures Join(parts[..|parts| - 1] + [parts[|parts| - 1] + g], sep) == Join(parts, sep) + g
  {
    var init := parts[..|parts| - 1];
    var last := parts[|parts| - 1];
    if init == [] {
      assert parts == [last];
    } else {
      assert parts == init + [last];
      JoinSnoc(init, last + g, sep);
      JoinSnoc(init, last, sep);
    }
  }

  /** The messages by field key, each issue in turn overwriting an earlier one with the same key. */
  function Collected(issues: seq<Issue>): (m: map<string, string>)
    ensures m.Keys == set i | 0 <= i < |issues| :: ErrorKey(issues[i].path)
  {
    if issues == [] then map[]
    else
      var n := |issues| - 1;
      var m := Collected(issues[..n])[ErrorKey(issues[n].path) := issues[n].message];
      assert forall i :: 0 <= i < n ==> issues[..n][i] == issues[i];
      m
  }

  /** The message stored under a key is that of the last issue with that key. */
  lemma {:induction false} LastIssueWins(issues: seq<Issue>, i: nat)
    requires i < |issues|
    requires forall j :: i < j < |issues| ==> ErrorKey(issues[j].path) != ErrorKey(issues[i].path)
    ensures Collected(issues)[ErrorKey(issues[i].path)] == issues[i].message
  {
    var n := |issues| - 1;
    var key := ErrorKey(issues[i].path);
    var last := ErrorKey(issues[n].path);
    assert Collected(issues) == Collected(issues[..n])[last := issues[n].message];
    if i < n {
      assert last != key;
      assert issues[..n][i] == issues[i];
      assert forall j :: i < j < n ==> issues[..n][j] == issues[j];
      LastIssueWins(issues[..n], i);
    }
  }

  /** getZodValidationsResult: the issues' messages by formatted key. */
  method ValidationsResult(issues: seq<Issue>) returns (result: map<string, string>)
    ensures result == Collected(issues)
  {
    result := map[];
    for i := 0 to |issues|
      invariant result == Collected(issues[..i])
    {
      assert issues[..i + 1][..i] == issues[..i];
      result := result[ErrorKey(issues[i].path) := issues[i].message];
    }
    assert issues[..|issues|] == issues;
  }

  /**
   * A form asking whether a field has errors by its plain dotted name finds an issue reported
   * for any element of an array on the way to that field.
   */
  lemma IssueMatchesField(issues: seq<Issue>, i: nat, keysToCheck: seq<string>)
    requires i < |issues|
    requires issues[i].path == [] || issues[i].path[0].Key?
    requires forall k :: 0 <= k < |issues[i].path| && issues[i].path[k].Key? ==> '[' !in issues[i].path[k].name
    requires Join(KeyNames(issues[i].path), ".") in keysToCheck
    ensures HasMatchingKeys(Collected(issues), keysToCheck)
  {
    StrippedErrorKey(issues[i].path);
    HasMatchingKeysMeans(Collected(issues), keysToCheck);
    assert ErrorKey(issues[i].path) in Collected(issues);
  }
}
