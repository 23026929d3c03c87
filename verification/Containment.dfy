/** Where received files end up once a file system has interpreted `.` and `..`: always below the
    receive directory, under the chosen name, whatever the manifest says. */
module Containment {
  import opened Basics
  import opened Decimals
  import opened Paths
  import opened SafePaths
  import opened ReceivePaths
  import M = Manifest

  /** What a file system makes of a path: an empty component and `.` stay, `..` goes up. */
  function Resolve(p: Path): Path {
    if p == [] then []
    else
      var before, last := Resolve(p[..|p| - 1]), p[|p| - 1];
      if last == "" || last == "." then before
      else if last == ".." then (if before == [] then [] else before[..|before| - 1])
      else before + [last]
  }

  /** A component that means one name, and nothing else, on every platform. */
  predicate Literal(component: string) {
    component != "" && component != "." && component != ".." && '/' !in component && '\\' !in component
  }

  lemma {:induction false} LiteralsStay(base: Path, rest: Path)
    requires forall k :: 0 <= k < |rest| ==> Literal(rest[k])
    ensures Resolve(base + rest) == Resolve(base) + rest
  {
    if rest == [] {
      assert base + rest == base;
    } else {
      var last := |rest| - 1;
      LiteralsStay(base, rest[..last]);
      assert (base + rest)[..|base + rest| - 1] == base + rest[..last];
      assert rest == rest[..last] + [rest[last]];
    }
  }

  lemma SafeSegmentIsLiteral(path: string, k: nat)
    requires Safe(path) && k < |Split(path)|
    ensures Literal(Split(path)[k])
  {
    var segment := Split(path)[k];
    SegmentsOfText(path, segment);
    var i: nat, j: nat :| SegmentAt(path, i, j) && path[i..j] == segment;
    assert !Unsafe(path[i..j]);
  }

  lemma DecimalIsPlain(n: nat)
    ensures '/' !in Decimal(n) && '\\' !in Decimal(n)
  {
    assert forall k :: 0 <= k < |Decimal(n)| ==> IsDigit(Decimal(n)[k]);
  }

  function Tail(extension: Option<string>): string {
    match extension case Some(e) => "." + e case None => ""
  }

  lemma StemAndTail(name: string)
    ensures StemAndExtension(name).0 + Tail(StemAndExtension(name).1) == name
  {
    match LastDot(name)
    case Some(i) => assert name == name[..i] + ("." + name[i + 1..]);
    case None =>
  }

  lemma NumberIsPlain(number: nat)
    ensures var middle := " (" + Decimal(number) + ")"; '/' !in middle && '\\' !in middle && |middle| > 2
  {
    DecimalIsPlain(number);
  }

  lemma NumberedIsLiteral(stem: string, tail: string, number: nat)
    requires '/' !in stem + tail && '\\' !in stem + tail
    ensures Literal(stem + " (" + Decimal(number) + ")" + tail)
  {
    var middle := " (" + Decimal(number) + ")";
    NumberIsPlain(number);
    Spliced(stem, middle, tail);
    assert stem + " (" + Decimal(number) + ")" + tail == stem + middle + tail;
  }

  lemma CandidateIsLiteral(name: string, number: nat)
    requires Literal(name)
    ensures Literal(Candidate(name, number))
  {
    if number > 0 {
      var parts := StemAndExtension(name);
      StemAndTail(name);
      NumberedIsLiteral(parts.0, Tail(parts.1), number);
    }
  }

  lemma Spliced(stem: string, middle: string, tail: string)
    requires '/' !in stem + tail && '\\' !in stem + tail && '/' !in middle && '\\' !in middle && |middle| > 2
    ensures Literal(stem + middle + tail)
  {
    var all := stem + middle + tail;
    forall k | 0 <= k < |all|
      ensures all[k] != '/' && all[k] != '\\'
    {
      if k < |stem| {
        assert all[k] == (stem + tail)[k];
      } else if k < |stem| + |middle| {
        assert all[k] == middle[k - |stem|];
      } else {
        assert all[k] == (stem + tail)[k - |middle|];
      }
    }
  }

  /** A numbered name keeps the beginning of the name and its extension. */
  lemma CandidateKeepsExtension(stem: string, extension: string, number: nat)
    requires stem != "" && stem + "." + extension != ".." && '.' !in extension && number > 0
    ensures Candidate(stem + "." + extension, number) == stem + " (" + Decimal(number) + ")." + extension
  {
    LastDotAt(stem, extension);
    var name := stem + "." + extension;
    assert name[..|stem|] == stem && name[|stem| + 1..] == extension;
  }

  /** A name without a dot, or with none but at its beginning, is numbered at its end. */
  lemma CandidateWithoutExtension(name: string, number: nat)
    requires name != "" && '.' !in name[1..] && number > 0
    ensures Candidate(name, number) == name + " (" + Decimal(number) + ")"
  {
    assert forall i :: 0 < i < |name| ==> name[i] == name[1..][i - 1];
  }

  lemma {:induction false} LastDotAt(stem: string, extension: string)
    requires '.' !in extension
    ensures LastDot(stem + "." + extension) == Some(|stem|)
    decreases |extension|
  {
    var name := stem + "." + extension;
    if extension != "" {
      var last := |extension| - 1;
      assert name[..|name| - 1] == stem + "." + extension[..last];
      assert name[|name| - 1] == extension[last];
      LastDotAt(stem, extension[..last]);
    }
  }

  lemma NamesAreLiteral(kind: M.MessageKind, name: string, sources: seq<M.SourceItem>, i: nat, number: nat)
    requires M.Acceptable(kind, name, sources) && i < |sources|
    ensures Literal(Candidate(name, number)) && forall k :: 0 < k < |Split(sources[i].path)| ==> Literal(Split(sources[i].path)[k])
  {
    AcceptableIsTree(kind, name, sources);
    NameIsLiteral(name);
    CandidateIsLiteral(name, number);
    forall k | 0 < k < |Split(sources[i].path)|
      ensures Literal(Split(sources[i].path)[k])
    {
      SafeSegmentIsLiteral(sources[i].path, k);
    }
  }

  /** The place of an item below the receive directory. */
  function Below(name: string, number: nat, item: M.SourceItem): Path {
    [Candidate(name, number)] + Split(item.path)[1..]
  }

  lemma DestinationIsBelow(base: Path, name: string, number: nat, item: M.SourceItem)
    ensures DestinationOf(base + [Candidate(name, number)], item) == base + Below(name, number, item)
  {
    assert base + [Candidate(name, number)] + Split(item.path)[1..] == base + Below(name, number, item);
  }

  /** Every destination of an accepted manifest, and the partial beside it, stays where it says:
      below the receive directory, in the chosen name, with nothing left to interpret. */
  lemma DestinationsStayBelow(kind: M.MessageKind, name: string, sources: seq<M.SourceItem>, i: nat, base: Path,
                              number: nat, transfer: string)
    requires M.Acceptable(kind, name, sources) && i < |sources|
    requires '/' !in transfer && '\\' !in transfer
    ensures var destination, below := DestinationOf(base + [Candidate(name, number)], sources[i]), Below(name, number, sources[i]);
            && destination == base + below && below[0] == Candidate(name, number)
            && Resolve(destination) == Resolve(base) + below
            && Resolve(PartialOf(destination, transfer)) == Resolve(base) + PartialOf(below, transfer)
  {
    NamesAreLiteral(kind, name, sources, i, number);
    DestinationIsBelow(base, name, number, sources[i]);
    LiteralsStay(base, Below(name, number, sources[i]));
    PartialStays(base, Below(name, number, sources[i]), transfer);
  }

  lemma NameIsLiteral(name: string)
    requires Safe(name) && '/' !in name
    ensures Literal(name)
  {
    OneSegment(name, name);
    var i: nat, j: nat :| SegmentAt(name, i, j) && name[i..j] == name;
    assert !Unsafe(name[i..j]);
  }

  lemma PartialBelow(base: Path, rest: Path, transfer: string)
    requires rest != []
    ensures PartialOf(base + rest, transfer) == base + PartialOf(rest, transfer)
  {
    var all, last := base + rest, |rest| - 1;
    assert all[|all| - 1] == rest[last] && all[..|all| - 1] == base + rest[..last];
  }

  lemma PartialStays(base: Path, rest: Path, transfer: string)
    requires rest != [] && (forall k :: 0 <= k < |rest| ==> Literal(rest[k])) && '/' !in transfer && '\\' !in transfer
    ensures Resolve(PartialOf(base + rest, transfer)) == Resolve(base) + PartialOf(rest, transfer)
  {
    HiddenIsLiteral(rest[|rest| - 1], transfer);
    PartialBelow(base, rest, transfer);
    LiteralsStay(base, PartialOf(rest, transfer));
  }

  lemma HiddenIsLiteral(file: string, transfer: string)
    requires Literal(file) && '/' !in transfer && '\\' !in transfer
    ensures Literal(PartialName(file, transfer))
  {
    var hidden := PartialName(file, transfer);
    assert |hidden| > 2;
    forall k | 0 <= k < |hidden|
      ensures hidden[k] != '/' && hidden[k] != '\\'
    {
      if 1 <= k < 1 + |file| {
        assert hidden[k] == file[k - 1];
      } else if 2 + |file| <= k < 2 + |file| + |transfer| {
        assert hidden[k] == transfer[k - 2 - |file|];
      } else if k >= 2 + |file| + |transfer| {
        assert hidden[k] == ".partial"[k - 2 - |file| - |transfer|];
      }
    }
  }

  /** Two transfers never share a partial, even for the same destination. */
  lemma PartialsOfTransfersDiffer(destination: Path, a: string, b: string)
    requires destination != [] && a != b
    ensures PartialOf(destination, a) != PartialOf(destination, b)
  {
    var last := destination[|destination| - 1];
    if PartialOf(destination, a) == PartialOf(destination, b) {
      assert PartialOf(destination, a)[|destination| - 1] == PartialName(last, a);
      assert PartialOf(destination, b)[|destination| - 1] == PartialName(last, b);
      SameTransfer(last, a, b);
    }
  }

  lemma SameTransfer(file: string, a: string, b: string)
    requires PartialName(file, a) == PartialName(file, b)
    ensures a == b
  {
    var start := |file| + 2;
    var x, y := PartialName(file, a), PartialName(file, b);
    assert |x| == start + |a| + 8 && |y| == start + |b| + 8;
    assert x[start..start + |a|] == a && y[start..start + |b|] == b;
  }
}
