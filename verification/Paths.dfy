/** Protocol paths. A string here is the UTF-8 encoding of the text, one char for each byte. */
module Paths {
  import opened Basics

  const MAX_RELATIVE_PATH_BYTES: nat := 1024
  const MAX_PATH_DEPTH: nat := 128

  function LastSlash(path: string): (r: Option<nat>)
    ensures r.None? <==> '/' !in path
    ensures r.Some? ==> r.value < |path| && path[r.value] == '/' && '/' !in path[r.value + 1..]
  {
    if path == "" then None
    else
      var last := |path| - 1;
      if path[last] == '/' then Some(last) else LastSlash(path[..last])
  }

  /** `rsplit_once('/')`, without the last segment. */
  function Parent(path: string): Option<string> {
    match LastSlash(path)
    case None => None
    case Some(i) => Some(path[..i])
  }

  /** `split('/')`. */
  function Split(path: string): (segments: seq<string>)
    ensures |segments| > 0
    decreases |path|
  {
    match LastSlash(path)
    case None => [path]
    case Some(i) => Split(path[..i]) + [path[i + 1..]]
  }

  function Join(segments: seq<string>): string
    requires |segments| > 0
  {
    var last := |segments| - 1;
    if last == 0 then segments[0] else Join(segments[..last]) + "/" + segments[last]
  }

  predicate Plain(segments: seq<string>) {
    forall i :: 0 <= i < |segments| ==> '/' !in segments[i]
  }

  lemma SlashAt(parent: string, name: string)
    requires '/' !in name
    ensures LastSlash(parent + "/" + name) == Some(|parent|)
    decreases |name|
  {
    var path := parent + "/" + name;
    if name != "" {
      var last := |name| - 1;
      assert path[..|path| - 1] == parent + "/" + name[..last];
      SlashAt(parent, name[..last]);
    }
  }

  lemma ChildPath(parent: string, name: string)
    requires '/' !in name
    ensures Parent(parent + "/" + name) == Some(parent)
    ensures Split(parent + "/" + name) == Split(parent) + [name]
  {
    SlashAt(parent, name);
    var path := parent + "/" + name;
    assert path[..|parent|] == parent && path[|parent| + 1..] == name;
  }

  lemma {:induction false} SplitIsPlain(path: string)
    ensures Plain(Split(path))
    decreases |path|
  {
    match LastSlash(path)
    case None =>
    case Some(i) => SplitIsPlain(path[..i]);
  }

  lemma {:induction false} JoinOfSplit(path: string)
    ensures Join(Split(path)) == path
    decreases |path|
  {
    match LastSlash(path)
    case None =>
    case Some(i) =>
      JoinOfSplit(path[..i]);
      assert Split(path)[..|Split(path)| - 1] == Split(path[..i]);
      assert path == path[..i] + "/" + path[i + 1..];
  }

  lemma {:induction false} SplitOfJoin(segments: seq<string>)
    requires |segments| > 0 && Plain(segments)
    ensures Split(Join(segments)) == segments
  {
    var last := |segments| - 1;
    if last == 0 {
      assert segments == [segments[0]];
    } else {
      SplitOfJoin(segments[..last]);
      ChildPath(Join(segments[..last]), segments[last]);
      assert segments == segments[..last] + [segments[last]];
    }
  }

  lemma SplitIsInjective(a: string, b: string)
    requires Split(a) == Split(b)
    ensures a == b
  {
    JoinOfSplit(a);
    JoinOfSplit(b);
  }

  lemma ParentSegments(path: string)
    ensures Parent(path).None? <==> |Split(path)| == 1
    ensures Parent(path).Some? ==> Split(Parent(path).value) == Split(path)[..|Split(path)| - 1]
  {
  }

  // ------------------------------------------------------------------- validity

  function Upper(c: char): char {
    if 'a' <= c <= 'z' then (c as int - 32) as char else c
  }

  function UpperAll(text: string): string {
    seq(|text|, i requires 0 <= i < |text| => Upper(text[i]))
  }

  /** `split('.').next()`. */
  function Stem(segment: string): string {
    if segment == "" || segment[0] == '.' then "" else [segment[0]] + Stem(segment[1..])
  }

  predicate ReservedStem(stem: string) {
    || stem == "CON" || stem == "PRN" || stem == "AUX" || stem == "NUL"
    || (|stem| == 4 && ("COM" <= stem || "LPT" <= stem) && '1' <= stem[3] <= '9')
  }

  predicate ValidSegment(segment: string) {
    && segment != "" && segment != "." && segment != ".."
    && segment[|segment| - 1] != '.' && segment[|segment| - 1] != ' '
    && (forall i :: 0 <= i < |segment| ==> segment[i] as int >= 0x20 && segment[i] !in "<>:\"|?*")
    && !ReservedStem(UpperAll(Stem(segment)))
  }

  predicate ValidPath(path: string) {
    && path != "" && |path| <= MAX_RELATIVE_PATH_BYTES
    && path[0] != '/' && (forall i :: 0 <= i < |path| ==> path[i] as int != 0 && path[i] != '\\')
    && |Split(path)| <= MAX_PATH_DEPTH
    && forall i :: 0 <= i < |Split(path)| ==> ValidSegment(Split(path)[i])
  }
}
