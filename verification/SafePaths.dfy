/** What the two validators accept, said on the texts alone: which paths are safe, and which lists
    of them are trees. */
module SafePaths {
  import opened Basics
  import opened Paths
  import opened Manifest

  /** `path[i..j]` lies between two slashes, or between a slash and an end. */
  predicate SegmentAt(path: string, i: nat, j: nat) {
    && i <= j <= |path| && '/' !in path[i..j]
    && (i == 0 || path[i - 1] == '/') && (j == |path| || path[j] == '/')
  }

  predicate SameLetters(text: string, upper: string) {
    && |text| == |upper|
    && forall k :: 0 <= k < |text| ==> text[k] == upper[k] || ('A' <= upper[k] <= 'Z' && text[k] as int == upper[k] as int + 32)
  }

  const DEVICES: seq<string> :=
    ["CON", "PRN", "AUX", "NUL",
     "COM1", "COM2", "COM3", "COM4", "COM5", "COM6", "COM7", "COM8", "COM9",
     "LPT1", "LPT2", "LPT3", "LPT4", "LPT5", "LPT6", "LPT7", "LPT8", "LPT9"]

  /** The name of a device, in any case and with any extensions. */
  ghost predicate NamesDevice(segment: string) {
    exists n :: 0 <= n <= |segment| && (n == |segment| || segment[n] == '.') && IsDevice(segment[..n])
  }

  ghost predicate IsDevice(text: string) {
    exists d :: 0 <= d < |DEVICES| && SameLetters(text, DEVICES[d])
  }

  /** Why a segment is refused: it is empty, goes nowhere or up, ends in a way some file systems
      drop, holds a control character or one they forbid, or names a device. */
  ghost predicate Unsafe(segment: string) {
    || segment == "" || segment == "." || segment == ".."
    || segment[|segment| - 1] in ". "
    || (exists k :: 0 <= k < |segment| && (segment[k] as int < 32 || segment[k] in "<>:\"|?*"))
    || NamesDevice(segment)
  }

  function Slashes(path: string): nat {
    if path == "" then 0 else Slashes(path[..|path| - 1]) + if path[|path| - 1] == '/' then 1 else 0
  }

  ghost predicate AllSafe(path: string) {
    forall i: nat, j: nat :: SegmentAt(path, i, j) ==> !Unsafe(path[i..j])
  }

  /** A path of at most 1024 bytes and 127 slashes, without a backslash, whose segments are safe. */
  ghost predicate Safe(path: string) {
    && |path| <= 1024 && Slashes(path) <= 127 && '\\' !in path && (forall k :: 0 <= k < |path| ==> path[k] as int != 0)
    && AllSafe(path)
  }

  // ------------------------------------------------------------------- segments

  lemma {:induction false} SlashesInSuffix(path: string, i: nat)
    requires i < |path| && path[i] == '/' && '/' !in path[i + 1..]
    ensures Slashes(path) == Slashes(path[..i]) + 1
    decreases |path|
  {
    var last := |path| - 1;
    if i < last {
      assert path[last] == path[i + 1..][last - i - 1];
      assert path[..last][i + 1..] == path[i + 1..][..last - i - 1];
      SlashesInSuffix(path[..last], i);
      assert path[..last][..i] == path[..i];
    }
  }

  lemma {:induction false} NoSlashes(path: string)
    requires '/' !in path
    ensures Slashes(path) == 0
  {
    if path != "" {
      assert path[|path| - 1] in path;
      NoSlashes(path[..|path| - 1]);
    }
  }

  ghost predicate HasSegment(path: string, segment: string) {
    exists i: nat, j: nat :: SegmentAt(path, i, j) && path[i..j] == segment
  }

  lemma OneSegment(path: string, segment: string)
    requires '/' !in path
    ensures HasSegment(path, segment) <==> segment == path
  {
    assert SegmentAt(path, 0, |path|) && path[0..|path|] == path;
    forall k | 0 <= k < |path|
      ensures path[k] != '/'
    {
      assert path[k] in path;
    }
    forall i: nat, j: nat | SegmentAt(path, i, j)
      ensures path[i..j] == path
    {
    }
  }

  /** With the last slash at `s`, a segment is the last one or one of what comes before. */
  lemma LastSegmentOnly(path: string, s: nat, i: nat, j: nat)
    requires LastSlash(path) == Some(s) && SegmentAt(path, i, j)
    ensures j <= s || (i == s + 1 && j == |path|)
  {
    forall k | s < k < |path|
      ensures path[k] != '/'
    {
      assert path[k] == path[s + 1..][k - s - 1];
    }
    forall k | i <= k < j
      ensures path[k] != '/'
    {
      assert path[k] == path[i..j][k - i];
    }
  }

  lemma EarlierSegment(path: string, s: nat, i: nat, j: nat)
    requires LastSlash(path) == Some(s) && j <= s
    ensures SegmentAt(path, i, j) <==> SegmentAt(path[..s], i, j)
    ensures i <= j ==> path[i..j] == path[..s][i..j]
  {
  }

  lemma MoreSegments(path: string, s: nat, segment: string)
    requires LastSlash(path) == Some(s)
    ensures HasSegment(path, segment) <==> HasSegment(path[..s], segment) || segment == path[s + 1..]
  {
    assert path[s + 1..|path|] == path[s + 1..];
    assert SegmentAt(path, s + 1, |path|);
    if HasSegment(path, segment) {
      var i: nat, j: nat :| SegmentAt(path, i, j) && path[i..j] == segment;
      LastSegmentOnly(path, s, i, j);
      if j <= s { EarlierSegment(path, s, i, j); }
    }
    if HasSegment(path[..s], segment) {
      var i: nat, j: nat :| SegmentAt(path[..s], i, j) && path[..s][i..j] == segment;
      EarlierSegment(path, s, i, j);
    }
  }

  /** The segments of a path are the texts between its slashes, one more than there are slashes. */
  lemma {:induction false} SegmentsOfText(path: string, segment: string)
    ensures segment in Split(path) <==> HasSegment(path, segment)
    ensures |Split(path)| == Slashes(path) + 1
    decreases |path|
  {
    match LastSlash(path)
    case None =>
      NoSlashes(path);
      OneSegment(path, segment);
    case Some(s) =>
      SlashesInSuffix(path, s);
      SegmentsOfText(path[..s], segment);
      MoreSegments(path, s, segment);
  }

  // -------------------------------------------------------------------- devices

  lemma DeviceMeansReserved(stem: string)
    ensures IsDevice(stem) <==> ReservedStem(UpperAll(stem))
  {
    var up := UpperAll(stem);
    forall d | 0 <= d < |DEVICES|
      ensures SameLetters(stem, DEVICES[d]) <==> up == DEVICES[d]
    {
      UpperMatches(stem, DEVICES[d]);
    }
    ReservedIsListed(up);
  }

  predicate NoLowerCase(text: string) {
    forall k :: 0 <= k < |text| ==> !('a' <= text[k] <= 'z')
  }

  lemma UpperMatches(text: string, upper: string)
    requires NoLowerCase(upper)
    ensures SameLetters(text, upper) <==> UpperAll(text) == upper
  {
    if SameLetters(text, upper) {
      assert UpperAll(text) == upper;
    } else if UpperAll(text) == upper {
      forall k | 0 <= k < |text|
        ensures text[k] == upper[k] || ('A' <= upper[k] <= 'Z' && text[k] as int == upper[k] as int + 32)
      {
        assert Upper(text[k]) == upper[k];
      }
    }
  }

  lemma ReservedIsListed(up: string)
    ensures ReservedStem(up) <==> up in DEVICES
  {
    if |up| == 4 && ("COM" <= up || "LPT" <= up) && '1' <= up[3] <= '9' {
      var c := up[3] as int - '1' as int;
      assert up == (if "COM" <= up then DEVICES[4 + c] else DEVICES[13 + c]);
    }
  }

  /** The part before the first dot. */
  lemma {:induction false} StemIsPrefix(segment: string)
    ensures Stem(segment) <= segment && '.' !in Stem(segment)
    ensures |Stem(segment)| < |segment| ==> segment[|Stem(segment)|] == '.'
  {
    if segment != "" && segment[0] != '.' {
      StemIsPrefix(segment[1..]);
    }
  }

  lemma NoDotInDevice(text: string)
    requires IsDevice(text)
    ensures '.' !in text
  {
    var d :| 0 <= d < |DEVICES| && SameLetters(text, DEVICES[d]);
    assert forall k :: 0 <= k < |DEVICES[d]| ==> DEVICES[d][k] != '.';
  }

  lemma NamesDeviceMeansReserved(segment: string)
    ensures NamesDevice(segment) <==> ReservedStem(UpperAll(Stem(segment)))
  {
    StemIsPrefix(segment);
    var n := |Stem(segment)|;
    assert segment[..n] == Stem(segment);
    DeviceMeansReserved(Stem(segment));
    if NamesDevice(segment) {
      var k :| 0 <= k <= |segment| && (k == |segment| || segment[k] == '.') && IsDevice(segment[..k]);
      NoDotInDevice(segment[..k]);
      SameStem(segment, k, n);
    }
  }

  lemma SameStem(segment: string, k: nat, n: nat)
    requires k <= |segment| && n <= |segment| && '.' !in segment[..k] && '.' !in segment[..n]
    requires (k == |segment| || segment[k] == '.') && (n == |segment| || segment[n] == '.')
    ensures k == n
  {
    forall i | 0 <= i < k
      ensures segment[i] != '.'
    {
      assert segment[i] == segment[..k][i];
    }
    forall i | 0 <= i < n
      ensures segment[i] != '.'
    {
      assert segment[i] == segment[..n][i];
    }
  }

  // -------------------------------------------------------- what validity means

  lemma SegmentMeansSafe(segment: string)
    ensures ValidSegment(segment) <==> !Unsafe(segment)
  {
    NamesDeviceMeansReserved(segment);
  }

  predicate AllValid(path: string) {
    forall k :: 0 <= k < |Split(path)| ==> ValidSegment(Split(path)[k])
  }

  lemma SegmentsMeanSafe(path: string)
    ensures AllValid(path) <==> AllSafe(path)
  {
    if AllValid(path) {
      forall i: nat, j: nat | SegmentAt(path, i, j)
        ensures !Unsafe(path[i..j])
      {
        SegmentsOfText(path, path[i..j]);
        SegmentMeansSafe(path[i..j]);
      }
    }
    if AllSafe(path) {
      forall k | 0 <= k < |Split(path)|
        ensures ValidSegment(Split(path)[k])
      {
        var segment := Split(path)[k];
        SegmentsOfText(path, segment);
        var i: nat, j: nat :| SegmentAt(path, i, j) && path[i..j] == segment;
        SegmentMeansSafe(segment);
      }
    }
  }

  lemma EmptySegment(path: string)
    requires path == "" || path[0] == '/'
    ensures !AllSafe(path)
  {
    assert SegmentAt(path, 0, 0) && path[0..0] == "";
  }

  /** The checks on a path accept exactly the safe ones. */
  lemma ValidMeansSafe(path: string)
    ensures ValidPath(path) <==> Safe(path)
  {
    SegmentsOfText(path, "");
    SegmentsMeanSafe(path);
    if path == "" || path[0] == '/' {
      EmptySegment(path);
    }
    assert '\\' !in path <==> forall k :: 0 <= k < |path| ==> path[k] != '\\';
  }

  // ------------------------------------------------------------ accepted lists

  /** Entry `i` is the display name itself, or extends the path of an earlier entry by a slash
      and one segment. */
  ghost predicate Grows(name: string, sources: seq<SourceItem>, i: nat)
    requires i < |sources|
  {
    || sources[i].path == name
    || exists j, segment :: 0 <= j < i && IsChild(sources[j].path, segment, sources[i].path)
  }

  predicate IsChild(parent: string, segment: string, path: string) {
    '/' !in segment && path == parent + "/" + segment
  }

  /** A list that grows entry by entry from the display name into a tree of safe, different
      paths, within all limits. */
  ghost predicate IsTree(kind: MessageKind, name: string, sources: seq<SourceItem>) {
    && kind in {File, Image, Folder, ClipboardImage} && Safe(name) && '/' !in name
    && 0 < |sources| <= 20_001 && CountFiles(sources) <= 10_000 && FileTotal(sources) <= 0x7FFF_FFFF_FFFF_FFFF
    && (if kind == Folder then sources[0].kind == DirectoryItem && sources[0].path == name
        else |sources| == 1 && sources[0].kind == FileItem)
    && (forall i :: 0 <= i < |sources| ==> Safe(sources[i].path) && Grows(name, sources, i))
    && (forall i, j :: 0 <= i < j < |sources| ==> sources[i].path != sources[j].path)
    && (forall i :: 0 <= i < |sources| && sources[i].kind == DirectoryItem ==> sources[i].size == 0)
  }

  lemma PlacedGrows(name: string, sources: seq<SourceItem>, i: nat)
    requires i < |sources| && Placed(name, sources, i)
    ensures Grows(name, sources, i)
  {
    var path := sources[i].path;
    match LastSlash(path)
    case None =>
    case Some(s) =>
      var j :| 0 <= j < i && j < |sources| && sources[j].path == path[..s];
      assert IsChild(sources[j].path, path[s + 1..], path);
  }

  lemma {:induction false} GrownStartsAtName(name: string, sources: seq<SourceItem>, i: nat)
    requires i < |sources| && '/' !in name && forall k :: 0 <= k <= i ==> Grows(name, sources, k)
    ensures Split(sources[i].path)[0] == name
    ensures Parent(sources[i].path).Some? ==> Listed(sources, i, Parent(sources[i].path).value)
  {
    assert Grows(name, sources, i);
    if sources[i].path != name {
      var j, segment :| 0 <= j < i && IsChild(sources[j].path, segment, sources[i].path);
      GrownStartsAtName(name, sources, j);
      ChildPath(sources[j].path, segment);
    }
  }

  /** Both validators accept exactly the trees. */
  lemma AcceptableIsTree(kind: MessageKind, name: string, sources: seq<SourceItem>)
    ensures Acceptable(kind, name, sources) <==> IsTree(kind, name, sources)
  {
    ValidMeansSafe(name);
    forall i | 0 <= i < |sources|
      ensures ValidPath(sources[i].path) <==> Safe(sources[i].path)
    {
      ValidMeansSafe(sources[i].path);
    }
    if Acceptable(kind, name, sources) {
      forall i | 0 <= i < |sources|
        ensures Safe(sources[i].path)
      {
        assert ItemGood(name, sources, i);
      }
      AcceptedIsTree(kind, name, sources);
    } else if IsTree(kind, name, sources) {
      TreeIsAccepted(kind, name, sources);
      assert false;
    }
  }

  lemma AcceptedIsTree(kind: MessageKind, name: string, sources: seq<SourceItem>)
    requires Acceptable(kind, name, sources) && Safe(name)
    requires forall i :: 0 <= i < |sources| ==> Safe(sources[i].path)
    ensures IsTree(kind, name, sources)
  {
    forall i | 0 <= i < |sources|
      ensures Grows(name, sources, i) && (sources[i].kind == DirectoryItem ==> sources[i].size == 0)
    {
      assert ItemGood(name, sources, i);
      PlacedGrows(name, sources, i);
    }
    forall i, j | 0 <= i < j < |sources|
      ensures sources[i].path != sources[j].path
    {
      assert ItemGood(name, sources, j);
    }
  }

  lemma TreeIsAccepted(kind: MessageKind, name: string, sources: seq<SourceItem>)
    requires IsTree(kind, name, sources) && ValidPath(name)
    requires forall i :: 0 <= i < |sources| ==> ValidPath(sources[i].path)
    ensures Acceptable(kind, name, sources)
  {
    forall i | 0 <= i < |sources|
      ensures ItemGood(name, sources, i)
    {
      GrownStartsAtName(name, sources, i);
    }
  }

  /** A list in which any path has an empty segment, a segment `.` or `..`, a backslash, a control
      character, or a segment that names a device, is refused by both validators. */
  lemma UnsafeIsRefused(kind: MessageKind, name: string, sources: seq<SourceItem>, k: nat, i: nat, j: nat)
    requires k < |sources| && SegmentAt(sources[k].path, i, j)
    requires var segment := sources[k].path[i..j];
             || segment == "" || segment == "." || segment == ".." || '\\' in segment
             || (exists c :: 0 <= c < |segment| && segment[c] as int < 32) || NamesDevice(segment)
    ensures !Acceptable(kind, name, sources)
  {
    AcceptableIsTree(kind, name, sources);
    var path := sources[k].path;
    if '\\' in path[i..j] {
      assert '\\' in path;
    } else {
      assert Unsafe(path[i..j]);
    }
  }
}
