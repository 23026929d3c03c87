/** Where received entries go: a root name nobody uses yet, one destination and one hidden
    partial file for each entry. */
module ReceivePaths {
  import opened Basics
  import opened Decimals
  import opened Paths
  import M = Manifest
  import T = Transfer
  import D = Delivery

  // -------------------------------------------------------------- unused names

  function LastDot(name: string): (r: Option<nat>)
    ensures r.Some? ==> r.value < |name| && name[r.value] == '.'
  {
    if name == "" then None
    else
      var last := |name| - 1;
      if name[last] == '.' then Some(last) else LastDot(name[..last])
  }

  /** `Path::file_stem` and `Path::extension` of a file name: a leading dot alone starts no
      extension. */
  function StemAndExtension(name: string): (string, Option<string>) {
    match LastDot(name)
    case Some(i) => if i == 0 || name == ".." then (name, None) else (name[..i], Some(name[i + 1..]))
    case None => (name, None)
  }

  /** The name tried after `n` names were taken. */
  function Candidate(name: string, n: nat): string {
    if n == 0 then name
    else
      var (stem, extension) := StemAndExtension(name);
      stem + " (" + Decimal(n) + ")" + match extension case Some(e) => "." + e case None => ""
  }

  lemma CandidatesDiffer(name: string, a: nat, b: nat)
    requires a < b
    ensures Candidate(name, a) != Candidate(name, b)
  {
    var (stem, extension) := StemAndExtension(name);
    var tail := ")" + match extension case Some(e) => "." + e case None => "";
    var x, y := Candidate(name, a), Candidate(name, b);
    assert y == stem + " (" + Decimal(b) + tail;
    if a == 0 {
      assert |y| > |name|;
    } else {
      assert x == stem + " (" + Decimal(a) + tail;
      if x == y {
        assert |Decimal(a)| == |Decimal(b)|;
        var start := |stem| + 2;
        assert x[start..start + |Decimal(a)|] == Decimal(a) && y[start..start + |Decimal(b)|] == Decimal(b);
        DecimalIsInjective(a, b);
      }
    }
  }

  function FirstCandidates(name: string, n: nat): set<string> {
    if n == 0 then {} else FirstCandidates(name, n - 1) + {Candidate(name, n - 1)}
  }

  lemma {:induction false} CandidatesCount(name: string, n: nat)
    ensures |FirstCandidates(name, n)| == n
    ensures forall c :: c in FirstCandidates(name, n) <==> exists k :: 0 <= k < n && c == Candidate(name, k)
  {
    if n > 0 {
      CandidatesCount(name, n - 1);
      forall k | 0 <= k < n - 1
        ensures Candidate(name, k) != Candidate(name, n - 1)
      {
        CandidatesDiffer(name, k, n - 1);
      }
      forall c
        ensures c in FirstCandidates(name, n) <==> exists k :: 0 <= k < n && c == Candidate(name, k)
      {
        if c == Candidate(name, n - 1) {
          assert 0 <= n - 1 < n;
        }
      }
    }
  }

  lemma SubsetIsSmaller(a: set<string>, b: set<string>)
    requires a <= b
    ensures |a| <= |b|
  {
    assert b == a + (b - a);
  }

  ghost predicate Taken(present: set<string>, name: string, n: nat) {
    forall k :: 0 <= k < n ==> Candidate(name, k) in present
  }

  /** As many names are present as were tried in vain. */
  lemma TakenBound(present: set<string>, name: string, n: nat)
    requires Taken(present, name, n)
    ensures n <= |present|
  {
    CandidatesCount(name, n);
    SubsetIsSmaller(FirstCandidates(name, n), present);
  }

  lemma TakenNext(present: set<string>, name: string, n: nat, next: nat)
    requires next == n + 1 && Taken(present, name, n) && Candidate(name, n) in present
    ensures Taken(present, name, next)
  {
  }

  /** Probes names until one is free. `present` are the names in the receive directory; no
      more than one probe beyond their number is ever needed, and the result is the first
      free numbering. */
  method UniqueDestination(present: set<string>, name: string) returns (chosen: string, ghost number: nat)
    ensures chosen == Candidate(name, number) && chosen !in present
    ensures Taken(present, name, number) && number <= |present|
  {
    number := 0;
    if name !in present { return name, 0; }
    var sequence: nat := 1;
    TakenBound(present, name, sequence);
    while true
      invariant 1 <= sequence <= |present| && Taken(present, name, sequence)
      decreases |present| - sequence
    {
      var candidate, next := Candidate(name, sequence), sequence + 1;
      if candidate !in present { return candidate, sequence; }
      TakenNext(present, name, sequence, next);
      TakenBound(present, name, next);
      sequence := next;
    }
  }

  // ------------------------------------------------------------------- preparing

  /** The columns of a received entry that preparing reads. */
  datatype Record = Record(id: nat, kind: M.ItemKind, path: string, size: nat, modified: int)

  datatype Prepared = Prepared(id: nat, destination: Path, partial: Option<Path>, offset: nat)

  datatype PrepareError = InvalidRoot | Unwritable

  /** The path below the display name: `strip_prefix(display_name)`, then an optional slash. */
  function Remainder(path: string, name: string): Option<string> {
    if !(name <= path) then None
    else
      var rest := path[|name|..];
      Some(if rest != "" && rest[0] == '/' then rest[1..] else rest)
  }

  function Destination(root: Path, folder: bool, path: string, name: string): Option<Path> {
    if !folder then Some(root)
    else match Remainder(path, name)
      case None => None
      case Some(rest) => Some(if rest == "" then root else root + Split(rest))
  }

  function PartialName(file: string, transfer: string): string {
    "." + file + "." + transfer + ".partial"
  }

  function PartialOf(destination: Path, transfer: string): Path
    requires destination != []
  {
    var last := |destination| - 1;
    destination[..last] + [PartialName(destination[last], transfer)]
  }

  /** A partial that is already there is kept up to the size of the entry. */
  function Kept(files: map<Path, Bytes>, partial: Path, size: nat): Bytes {
    var content := if partial in files then files[partial] else [];
    content[..Min(|content|, size)]
  }

  function Opened(files: map<Path, Bytes>, partial: Path, size: nat): map<Path, Bytes> {
    files[partial := Kept(files, partial, size)]
  }

  /** What one entry is prepared with, and the files afterwards. */
  function PrepareOne(files: map<Path, Bytes>, root: Path, folder: bool, name: string, transfer: string,
                      e: Record): Option<(Prepared, map<Path, Bytes>)> {
    match Destination(root, folder, e.path, name)
    case None => None
    case Some(destination) =>
      if e.kind.DirectoryItem? then Some((Prepared(e.id, destination, None, 0), files))
      else if destination == [] then None
      else
        var partial := PartialOf(destination, transfer);
        var after := Opened(files, partial, e.size);
        Some((Prepared(e.id, destination, Some(partial), |after[partial]|), after))
  }

  function PrepareAll(files: map<Path, Bytes>, root: Path, folder: bool, name: string, transfer: string,
                      entries: seq<Record>): Option<(seq<Prepared>, map<Path, Bytes>)> {
    if entries == [] then Some(([], files))
    else
      var last := |entries| - 1;
      match PrepareAll(files, root, folder, name, transfer, entries[..last])
      case None => None
      case Some(done) =>
        match PrepareOne(done.1, root, folder, name, transfer, entries[last])
        case None => None
        case Some(one) => Some((done.0 + [one.0], one.1))
  }

  /** Opens the partial of a file, creating it if needed, and cuts it to the entry's size. */
  method PrepareEntry(files: map<Path, Bytes>, root: Path, folder: bool, name: string, transfer: string, entry: Record)
    returns (one: Option<Prepared>, after: map<Path, Bytes>)
    ensures var spec := PrepareOne(files, root, folder, name, transfer, entry);
            if one.Some? then spec == Some((one.value, after)) else spec == None && after == files
  {
    after := files;
    var destination := Destination(root, folder, entry.path, name);
    if destination.None? { return None, files; }
    match entry.kind
    case DirectoryItem =>
      one := Some(Prepared(entry.id, destination.value, None, 0));
    case FileItem =>
      if destination.value == [] { return None, files; }
      var partial := PartialOf(destination.value, transfer);
      if partial !in after { after := after[partial := []]; }
      var length := |after[partial]|;
      var offset := Min(length, entry.size);
      assert after[partial][..length] == after[partial];
      if length > offset { after := after[partial := after[partial][..offset]]; }
      assert after == Opened(files, partial, entry.size);
      one := Some(Prepared(entry.id, destination.value, Some(partial), offset));
  }

  /** Every entry is below the display name. */
  predicate AllPlaced(entries: seq<Record>, folder: bool, name: string) {
    folder ==> forall i :: 0 <= i < |entries| ==> Remainder(entries[i].path, name).Some?
  }

  lemma RootIsNeverEmpty(root: Path, folder: bool, path: string, name: string)
    requires root != []
    ensures Destination(root, folder, path, name).Some? ==> Destination(root, folder, path, name).value != []
  {
  }

  lemma PrepareNext(files: map<Path, Bytes>, root: Path, folder: bool, name: string, transfer: string, entries: seq<Record>,
                    i: nat, done: seq<Prepared>, mid: map<Path, Bytes>, one: Prepared, after: map<Path, Bytes>)
    requires i < |entries| && PrepareAll(files, root, folder, name, transfer, entries[..i]) == Some((done, mid))
    requires PrepareOne(mid, root, folder, name, transfer, entries[i]) == Some((one, after))
    ensures PrepareAll(files, root, folder, name, transfer, entries[..i + 1]) == Some((done + [one], after))
  {
    assert entries[..i + 1][..i] == entries[..i];
  }

  /** The loop over the entries. Creating directories and opening files may fail at any entry,
      unless all is `calm`. */
  method PrepareEntries(files: map<Path, Bytes>, root: Path, folder: bool, name: string, transfer: string,
                        entries: seq<Record>, calm: bool)
    returns (result: Result<seq<Prepared>, PrepareError>, after: map<Path, Bytes>)
    requires root != []
    ensures result.Ok? ==> PrepareAll(files, root, folder, name, transfer, entries) == Some((result.value, after))
    ensures calm && AllPlaced(entries, folder, name) ==> result.Ok?
  {
    after := files;
    var prepared: seq<Prepared>, i := [], 0;
    while i < |entries|
      invariant i <= |entries| && PrepareAll(files, root, folder, name, transfer, entries[..i]) == Some((prepared, after))
    {
      var failed: bool := *;
      if failed && !calm { return Err(Unwritable), after; }
      ghost var before := after;
      var one;
      one, after := PrepareEntry(after, root, folder, name, transfer, entries[i]);
      RootIsNeverEmpty(root, folder, entries[i].path, name);
      if one.None? { return Err(InvalidRoot), after; }
      PrepareNext(files, root, folder, name, transfer, entries, i, prepared, before, one.value, after);
      prepared := prepared + [one.value];
      i := i + 1;
    }
    assert entries[..|entries|] == entries;
    return Ok(prepared), after;
  }

  /** `present` are the names in the receive directory `base`. */
  method PrepareReceivePaths(base: Path, present: set<string>, files: map<Path, Bytes>, transfer: string,
                             name: string, entries: seq<Record>, calm: bool)
    returns (result: Result<seq<Prepared>, PrepareError>, after: map<Path, Bytes>, ghost number: nat)
    ensures entries == [] || Split(entries[0].path)[0] != name ==> result == Err(InvalidRoot) && after == files
    ensures result.Ok? ==>
              && entries != [] && Candidate(name, number) !in present && Taken(present, name, number)
              && PrepareAll(files, base + [Candidate(name, number)], entries[0].kind.DirectoryItem?, name, transfer, entries) == Some((result.value, after))
    ensures calm && entries != [] && Split(entries[0].path)[0] == name && AllPlaced(entries, entries[0].kind.DirectoryItem?, name) ==>
              result.Ok?
  {
    after, number := files, 0;
    if entries == [] || Split(entries[0].path)[0] != name { return Err(InvalidRoot), after, 0; }
    var chosen;
    chosen, number := UniqueDestination(present, name);
    result, after := PrepareEntries(files, base + [chosen], entries[0].kind.DirectoryItem?, name, transfer, entries, calm);
  }

  // ------------------------------------------------- what a valid manifest gets

  function RecordOf(item: M.SourceItem, id: nat): Record {
    Record(id, item.kind, item.path, item.size, item.modified)
  }

  /** What one more segment adds to the remainder. */
  lemma RemainderGrows(parent: string, segment: string, name: string)
    requires parent == name || name + "/" <= parent
    ensures Remainder(parent, name).Some?
    ensures Remainder(parent + "/" + segment, name)
         == Some(if parent == name then segment else Remainder(parent, name).value + "/" + segment)
    ensures name + "/" <= parent + "/" + segment
  {
    var path := parent + "/" + segment;
    if parent == name {
      assert path[|name|..] == "/" + segment;
    } else {
      assert path[|name|..] == parent[|name|..] + "/" + segment;
      assert parent[|name|..][0] == '/';
      assert path[|name|..][1..] == parent[|name|..][1..] + "/" + segment;
    }
  }

  lemma TailGrows(segments: seq<string>, segment: string)
    requires |segments| > 0 && "" !in segments + [segment]
    ensures (segments + [segment])[1..] == segments[1..] + [segment]
    ensures (segments + [segment])[0] == segments[0] && "" !in segments && segment != ""
  {
    assert (segments + [segment])[|segments|] == segment;
    forall k | 0 <= k < |segments|
      ensures segments[k] != ""
    {
      assert (segments + [segment])[k] == segments[k];
    }
  }

  /** A path whose first segment is the display name is the name itself, or continues it after
      a slash; and what remains are its other segments. */
  lemma {:induction false} RemainderIsTail(path: string, name: string)
    requires Split(path)[0] == name && "" !in Split(path)
    ensures path == name || name + "/" <= path
    ensures Remainder(path, name).Some?
    ensures |Split(path)| == 1 <==> path == name
    ensures |Split(path)| == 1 <==> Remainder(path, name) == Some("")
    ensures |Split(path)| > 1 ==> Split(Remainder(path, name).value) == Split(path)[1..]
    decreases |path|
  {
    match LastSlash(path)
    case None =>
    case Some(i) =>
      var parent, segment := path[..i], path[i + 1..];
      var segments := Split(parent);
      assert path == parent + "/" + segment && Split(path) == segments + [segment];
      TailGrows(segments, segment);
      RemainderIsTail(parent, name);
      RemainderGrows(parent, segment, name);
      if |segments| > 1 {
        ChildPath(Remainder(parent, name).value, segment);
      }
  }

  /** In an accepted manifest each destination is the root followed by the entry's remaining
      path segments. */
  lemma DestinationIsRootAndTail(kind: M.MessageKind, name: string, sources: seq<M.SourceItem>, i: nat, root: Path,
                                 folder: bool)
    requires M.Acceptable(kind, name, sources) && i < |sources| && (folder <==> kind.Folder?)
    ensures Destination(root, folder, sources[i].path, name) == Some(root + Split(sources[i].path)[1..])
  {
    var path := sources[i].path;
    assert M.ItemGood(name, sources, i);
    assert forall k :: 0 <= k < |Split(path)| ==> ValidSegment(Split(path)[k]);
    RemainderIsTail(path, name);
    if !folder {
      assert |Split(path)| == 1 by { SingleIsRoot(kind, name, sources); }
    }
    assert root + [] == root;
    assert |Split(path)| == 1 ==> Split(path)[1..] == [];
  }

  /** The entries of an accepted manifest are all placed, so preparing them fails only where the
      file system does. */
  lemma AcceptedIsPlaced(kind: M.MessageKind, name: string, sources: seq<M.SourceItem>, records: seq<Record>)
    requires M.Acceptable(kind, name, sources) && |records| == |sources|
    requires forall i :: 0 <= i < |records| ==> records[i].path == sources[i].path
    ensures AllPlaced(records, kind.Folder?, name) && Split(records[0].path)[0] == name
  {
    SingleIsRoot(kind, name, sources);
    forall i | 0 <= i < |records|
      ensures Remainder(records[i].path, name).Some?
    {
      assert M.ItemGood(name, sources, i);
      assert forall k :: 0 <= k < |Split(sources[i].path)| ==> ValidSegment(Split(sources[i].path)[k]);
      RemainderIsTail(sources[i].path, name);
    }
  }

  lemma SingleIsRoot(kind: M.MessageKind, name: string, sources: seq<M.SourceItem>)
    requires M.Acceptable(kind, name, sources)
    ensures sources[0].path == name && Split(sources[0].path) == [name]
  {
    assert M.ItemGood(name, sources, 0);
    ParentSegments(sources[0].path);
    JoinOfSplit(sources[0].path);
  }

  // ----------------------------------------------------------------- distinctness

  lemma {:induction false} PreparedAt(files: map<Path, Bytes>, root: Path, folder: bool, name: string, transfer: string,
                                      entries: seq<Record>, prepared: seq<Prepared>, after: map<Path, Bytes>)
    requires PrepareAll(files, root, folder, name, transfer, entries) == Some((prepared, after))
    ensures |prepared| == |entries|
    ensures forall i :: 0 <= i < |entries| ==>
              && prepared[i].id == entries[i].id && Destination(root, folder, entries[i].path, name) == Some(prepared[i].destination)
              && (entries[i].kind.DirectoryItem? ==> prepared[i].partial == None)
              && (entries[i].kind.FileItem? ==> prepared[i].destination != [] && prepared[i].partial == Some(PartialOf(prepared[i].destination, transfer)))
  {
    if entries != [] {
      var last := |entries| - 1;
      var done := PrepareAll(files, root, folder, name, transfer, entries[..last]).value;
      PreparedAt(files, root, folder, name, transfer, entries[..last], done.0, done.1);
      forall i | 0 <= i < last
        ensures entries[..last][i] == entries[i] && prepared[i] == done.0[i]
      {
      }
    }
  }

  ghost predicate IsPartial(prepared: seq<Prepared>, p: Path) {
    exists i :: 0 <= i < |prepared| && prepared[i].partial == Some(p)
  }

  lemma IsPartialAppend(done: seq<Prepared>, one: Prepared, p: Path)
    ensures IsPartial(done + [one], p) <==> IsPartial(done, p) || one.partial == Some(p)
  {
    if IsPartial(done, p) {
      var i :| 0 <= i < |done| && done[i].partial == Some(p);
      assert (done + [one])[i].partial == Some(p);
    }
    assert (done + [one])[|done|] == one;
  }

  /** Preparing touches nothing but partials. */
  lemma {:induction false} OthersAfterPreparing(files: map<Path, Bytes>, root: Path, folder: bool, name: string,
                                                transfer: string,
                                                entries: seq<Record>, prepared: seq<Prepared>, after: map<Path, Bytes>, p: Path)
    requires PrepareAll(files, root, folder, name, transfer, entries) == Some((prepared, after))
    requires !IsPartial(prepared, p)
    ensures (p in after <==> p in files) && (p in files ==> after[p] == files[p])
  {
    if entries != [] {
      var last := |entries| - 1;
      var done := PrepareAll(files, root, folder, name, transfer, entries[..last]).value;
      var one := PrepareOne(done.1, root, folder, name, transfer, entries[last]).value;
      assert prepared == done.0 + [one.0];
      IsPartialAppend(done.0, one.0, p);
      OthersAfterPreparing(files, root, folder, name, transfer, entries[..last], done.0, done.1, p);
    }
  }

  ghost predicate PartialsDiffer(prepared: seq<Prepared>) {
    forall i, j :: 0 <= i < j < |prepared| && prepared[i].partial.Some? ==> prepared[i].partial != prepared[j].partial
  }

  lemma PartialsDifferBefore(done: seq<Prepared>, one: Prepared)
    requires PartialsDiffer(done + [one])
    ensures PartialsDiffer(done) && (one.partial.Some? ==> !IsPartial(done, one.partial.value))
  {
    var all := done + [one];
    forall i, j | 0 <= i < j < |done| && done[i].partial.Some?
      ensures done[i].partial != done[j].partial
    {
      assert all[i] == done[i] && all[j] == done[j];
    }
    forall i | 0 <= i < |done| && one.partial.Some?
      ensures done[i].partial != one.partial
    {
      assert all[i] == done[i] && all[|done|] == one;
    }
  }

  /** Where partials differ, each holds what was kept of it, and its length is the offset. */
  lemma {:induction false} PartialAfterPreparing(files: map<Path, Bytes>, root: Path, folder: bool, name: string,
                                                 transfer: string,
                                                 entries: seq<Record>, prepared: seq<Prepared>, after: map<Path, Bytes>, i: nat)
    requires PrepareAll(files, root, folder, name, transfer, entries) == Some((prepared, after)) && PartialsDiffer(prepared)
    requires i < |prepared| == |entries| && prepared[i].partial.Some?
    ensures var p := prepared[i].partial.value;
            && p in after && prepared[i].offset == |after[p]| && after[p] == Kept(files, p, entries[i].size)
            && (p !in files ==> after[p] == [])
            && (p in files ==> after[p] <= files[p] && |after[p]| == Min(|files[p]|, entries[i].size))
  {
    var last := |entries| - 1;
    var done := PrepareAll(files, root, folder, name, transfer, entries[..last]).value;
    var one := PrepareOne(done.1, root, folder, name, transfer, entries[last]).value;
    assert prepared == done.0 + [one.0];
    PartialsDifferBefore(done.0, one.0);
    if i == last {
      OthersAfterPreparing(files, root, folder, name, transfer, entries[..last], done.0, done.1, prepared[i].partial.value);
    } else {
      assert prepared[i].partial != prepared[last].partial;
      PartialAfterPreparing(files, root, folder, name, transfer, entries[..last], done.0, done.1, i);
    }
  }

  lemma PartialIsInjective(a: Path, b: Path, transfer: string)
    requires a != [] && b != [] && PartialOf(a, transfer) == PartialOf(b, transfer)
    ensures a == b
  {
    var x, y := a[|a| - 1], b[|b| - 1];
    var p := PartialOf(a, transfer);
    assert p[|a| - 1] == PartialName(x, transfer) && p[|b| - 1] == PartialName(y, transfer);
    assert PartialName(x, transfer)[1..1 + |x|] == x && PartialName(y, transfer)[1..1 + |y|] == y;
    assert a[..|a| - 1] == p[..|a| - 1] && b[..|b| - 1] == p[..|b| - 1];
    assert a == a[..|a| - 1] + [x] && b == b[..|b| - 1] + [y];
  }

  function LastSegment(path: string): string {
    Split(path)[|Split(path)| - 1]
  }

  /** No entry is named like the partial of a file of the same transfer. */
  ghost predicate NoPartialNames(sources: seq<M.SourceItem>, transfer: string) {
    forall i, j :: 0 <= i < |sources| && 0 <= j < |sources| && sources[i].kind.FileItem? ==>
      LastSegment(sources[j].path) != PartialName(LastSegment(sources[i].path), transfer)
  }

  /** Destinations of an accepted manifest. */
  function DestinationOf(root: Path, item: M.SourceItem): Path {
    root + Split(item.path)[1..]
  }

  lemma DestinationsDiffer(kind: M.MessageKind, name: string, sources: seq<M.SourceItem>, i: nat, j: nat, root: Path)
    requires M.Acceptable(kind, name, sources) && i < |sources| && j < |sources| && i != j
    ensures DestinationOf(root, sources[i]) != DestinationOf(root, sources[j])
  {
    M.AcceptedPathsAreUnique(kind, name, sources, i, j);
    M.AcceptedPathsAreUnique(kind, name, sources, j, i);
    var a, b := Split(sources[i].path), Split(sources[j].path);
    assert a == [name] + a[1..] && b == [name] + b[1..];
    assert (root + a[1..])[|root|..] == a[1..] && (root + b[1..])[|root|..] == b[1..];
  }

  /** In a folder, a file is below the root. */
  lemma FilesAreBelowRoot(name: string, sources: seq<M.SourceItem>, i: nat)
    requires M.Acceptable(M.Folder, name, sources) && i < |sources| && sources[i].kind.FileItem?
    ensures |Split(sources[i].path)| > 1
  {
    M.AcceptedPathsAreUnique(M.Folder, name, sources, i, 0);
    SingleIsRoot(M.Folder, name, sources);
    assert Split(sources[i].path) == [name] + Split(sources[i].path)[1..];
  }

  lemma PartialIsNoDestination(kind: M.MessageKind, name: string, sources: seq<M.SourceItem>, transfer: string,
                               i: nat, j: nat, root: Path)
    requires M.Acceptable(kind, name, sources) && NoPartialNames(sources, transfer) && root != []
    requires i < |sources| && j < |sources| && sources[i].kind.FileItem?
    ensures PartialOf(DestinationOf(root, sources[i]), transfer) != DestinationOf(root, sources[j])
  {
    var d, e := DestinationOf(root, sources[i]), DestinationOf(root, sources[j]);
    var p := PartialOf(d, transfer);
    assert p[|d| - 1] == PartialName(d[|d| - 1], transfer) && |p| == |d|;
    if i == j {
      assert |d[|d| - 1]| < |p[|d| - 1]|;
    } else {
      FilesAreBelowRoot(name, sources, i);
      assert d[|d| - 1] == LastSegment(sources[i].path);
      if |e| == |d| {
        assert e[|e| - 1] == LastSegment(sources[j].path);
      }
    }
  }

  // ------------------------------------------------------- the transfer that starts

  /** The rows of the transfer, as the data connection sees them. */
  function RowOf(item: M.SourceItem, p: Prepared): T.Entry {
    T.Entry(p.id, if item.kind.FileItem? then T.File else T.Directory, item.size, item.modified, p.destination,
            if p.partial.Some? then p.partial.value else [])
  }

  function RowsOf(sources: seq<M.SourceItem>, prepared: seq<Prepared>): (r: seq<T.Entry>)
    requires |prepared| == |sources|
    ensures |r| == |sources| && forall i :: 0 <= i < |r| ==> r[i] == RowOf(sources[i], prepared[i])
  {
    seq(|sources|, i requires 0 <= i < |sources| => RowOf(sources[i], prepared[i]))
  }

  ghost predicate RecordsOf(sources: seq<M.SourceItem>, ids: seq<nat>, records: seq<Record>) {
    && |records| == |sources| == |ids|
    && (forall i :: 0 <= i < |records| ==> records[i] == RecordOf(sources[i], ids[i]))
    && (forall i, j :: 0 <= i < j < |ids| ==> ids[i] != ids[j])
  }

  /** Every entry has its own destination, the root followed by its remaining segments, and
      every file the partial that belongs to it. */
  ghost predicate PreparedAs(sources: seq<M.SourceItem>, ids: seq<nat>, root: Path, transfer: string,
                             prepared: seq<Prepared>)
    requires root != []
  {
    && |prepared| == |sources| == |ids|
    && forall i :: 0 <= i < |sources| ==>
         && prepared[i].id == ids[i] && prepared[i].destination == DestinationOf(root, sources[i])
         && prepared[i].partial == if sources[i].kind.FileItem? then Some(PartialOf(DestinationOf(root, sources[i]), transfer)) else None
  }

  lemma PreparedForManifest(kind: M.MessageKind, name: string, sources: seq<M.SourceItem>, ids: seq<nat>,
                            records: seq<Record>,
                            files: map<Path, Bytes>, root: Path, transfer: string, prepared: seq<Prepared>, after: map<Path, Bytes>)
    requires M.Acceptable(kind, name, sources) && RecordsOf(sources, ids, records) && root != []
    requires PrepareAll(files, root, kind.Folder?, name, transfer, records) == Some((prepared, after))
    ensures PreparedAs(sources, ids, root, transfer, prepared)
  {
    PreparedAt(files, root, kind.Folder?, name, transfer, records, prepared, after);
    forall i | 0 <= i < |sources|
      ensures Destination(root, kind.Folder?, records[i].path, name) == Some(DestinationOf(root, sources[i]))
    {
      DestinationIsRootAndTail(kind, name, sources, i, root, kind.Folder?);
    }
  }

  lemma RowsApart(kind: M.MessageKind, name: string, sources: seq<M.SourceItem>, ids: seq<nat>, root: Path,
                  transfer: string,
                  prepared: seq<Prepared>, i: nat, j: nat)
    requires M.Acceptable(kind, name, sources) && NoPartialNames(sources, transfer) && root != []
    requires PreparedAs(sources, ids, root, transfer, prepared) && i < |sources| && j < |sources|
    ensures i != j ==> prepared[i].destination != prepared[j].destination
    ensures prepared[i].partial.Some? ==> prepared[i].partial.value != prepared[j].destination
    ensures i != j && prepared[i].partial.Some? ==> prepared[i].partial != prepared[j].partial
  {
    if i != j {
      DestinationsDiffer(kind, name, sources, i, j, root);
      if prepared[i].partial.Some? && prepared[i].partial == prepared[j].partial {
        PartialIsInjective(prepared[i].destination, prepared[j].destination, transfer);
      }
    }
    if prepared[i].partial.Some? {
      PartialIsNoDestination(kind, name, sources, transfer, i, j, root);
    }
  }

  lemma {:induction false} TotalsAgree(sources: seq<M.SourceItem>, prepared: seq<Prepared>, rows: seq<T.Entry>)
    requires |prepared| == |sources| && rows == RowsOf(sources, prepared)
    ensures T.TotalSize(rows) == M.FileTotal(sources)
    decreases |sources|
  {
    if sources != [] {
      var last := |sources| - 1;
      TotalsAgree(sources[..last], prepared[..last], rows[..last]);
      assert rows == rows[..last] + [rows[last]];
      TotalAppend(rows[..last], rows[last]);
    }
  }

  lemma {:induction false} TotalAppend(rows: seq<T.Entry>, row: T.Entry)
    ensures T.TotalSize(rows + [row]) == T.TotalSize(rows) + if row.kind.File? then row.size else 0
  {
    if rows == [] {
      assert rows + [row] == [row];
    } else {
      TotalAppend(rows[1..], row);
      assert (rows + [row])[1..] == rows[1..] + [row];
    }
  }

  /** Preparing an accepted manifest gives every entry its own destination and every file its
      own partial, none of which is a destination: what receiving and publishing rely on. */
  lemma PreparedIsValid(kind: M.MessageKind, name: string, sources: seq<M.SourceItem>, ids: seq<nat>,
                        records: seq<Record>,
                        files: map<Path, Bytes>, root: Path, transfer: string, prepared: seq<Prepared>, after: map<Path, Bytes>)
    requires M.Acceptable(kind, name, sources) && RecordsOf(sources, ids, records)
             && NoPartialNames(sources, transfer) && root != []
    requires PrepareAll(files, root, kind.Folder?, name, transfer, records) == Some((prepared, after))
    ensures |prepared| == |sources| && T.ValidEntries(RowsOf(sources, prepared))
    ensures forall i, j :: 0 <= i < j < |prepared| ==> prepared[i].destination != prepared[j].destination
  {
    PreparedForManifest(kind, name, sources, ids, records, files, root, transfer, prepared, after);
    TotalsAgree(sources, prepared, RowsOf(sources, prepared));
    RowsAreDistinct(kind, name, sources, ids, root, transfer, prepared);
  }

  lemma RowsAreDistinct(kind: M.MessageKind, name: string, sources: seq<M.SourceItem>, ids: seq<nat>, root: Path,
                        transfer: string, prepared: seq<Prepared>)
    requires M.Acceptable(kind, name, sources) && NoPartialNames(sources, transfer) && root != []
    requires PreparedAs(sources, ids, root, transfer, prepared) && forall i, j :: 0 <= i < j < |ids| ==> ids[i] != ids[j]
    ensures T.DistinctEntries(RowsOf(sources, prepared))
    ensures forall i, j :: 0 <= i < j < |prepared| ==> prepared[i].destination != prepared[j].destination
  {
    var rows := RowsOf(sources, prepared);
    forall i, j | 0 <= i < |rows| && 0 <= j < |rows|
      ensures i != j ==> prepared[i].destination != prepared[j].destination
      ensures rows[i].kind.File? ==> rows[i].partial != rows[j].destination
      ensures i != j && rows[i].kind.File? && rows[j].kind.File? ==> rows[i].partial != rows[j].partial
    {
      RowsApart(kind, name, sources, ids, root, transfer, prepared, i, j);
    }
  }

  /** What is already in the partials of a transfer is the beginning of its sources. */
  ghost predicate Resumes(sources: seq<M.SourceItem>, ids: seq<nat>, prepared: seq<Prepared>, files: map<Path, Bytes>,
                          src: map<nat, Bytes>)
    requires |prepared| == |sources| == |ids|
  {
    forall i :: 0 <= i < |sources| && sources[i].kind.FileItem? ==>
      && ids[i] in src && |src[ids[i]]| == sources[i].size
      && (prepared[i].partial.Some? ==> Kept(files, prepared[i].partial.value, sources[i].size) <= src[ids[i]])
  }

  /** The rows of the transfer record the prepared offsets. */
  ghost predicate Records(prepared: seq<Prepared>, offsets: T.Offsets) {
    forall i :: 0 <= i < |prepared| ==> T.Off(offsets, prepared[i].id) == prepared[i].offset
  }

  /** A transfer prepared in a directory that holds nothing at or below its root starts where
      every run of `Delivery` starts, with whatever its partials already hold. */
  lemma PreparedIsAccepting(kind: M.MessageKind, name: string, sources: seq<M.SourceItem>, ids: seq<nat>,
                            records: seq<Record>,
                            files: map<Path, Bytes>, root: Path, transfer: string, prepared: seq<Prepared>, after: map<Path, Bytes>,
                            src: map<nat, Bytes>, offsets: T.Offsets, sender: T.Offsets)
    requires M.Acceptable(kind, name, sources) && RecordsOf(sources, ids, records)
             && NoPartialNames(sources, transfer) && root != []
    requires PrepareAll(files, root, kind.Folder?, name, transfer, records) == Some((prepared, after))
             && |prepared| == |sources|
    requires Resumes(sources, ids, prepared, files, src) && Records(prepared, offsets)
    requires forall p :: p in files ==> !(root <= p)
    ensures D.Accepting(RowsOf(sources, prepared), src, D.World(T.Disk(after, offsets, {}), sender, false))
  {
    PreparedForManifest(kind, name, sources, ids, records, files, root, transfer, prepared, after);
    var rows := RowsOf(sources, prepared);
    RowsDiffer(kind, name, sources, ids, root, transfer, prepared);
    forall e | e in rows && e.kind.File?
      ensures e.id in src && |src[e.id]| == e.size && e.partial in after && after[e.partial] <= src[e.id]
              && T.Off(offsets, e.id) == |after[e.partial]| && e.destination !in after
    {
      var i :| 0 <= i < |rows| && rows[i] == e;
      PartialAfterPreparing(files, root, kind.Folder?, name, transfer, records, prepared, after, i);
      assert !IsPartial(prepared, e.destination);
      assert root <= e.destination;
      OthersAfterPreparing(files, root, kind.Folder?, name, transfer, records, prepared, after, e.destination);
    }
  }

  lemma RowsDiffer(kind: M.MessageKind, name: string, sources: seq<M.SourceItem>, ids: seq<nat>, root: Path,
                   transfer: string, prepared: seq<Prepared>)
    requires M.Acceptable(kind, name, sources) && NoPartialNames(sources, transfer) && root != []
    requires PreparedAs(sources, ids, root, transfer, prepared)
    ensures PartialsDiffer(prepared) && forall i :: 0 <= i < |prepared| ==> !IsPartial(prepared, prepared[i].destination)
  {
    forall i, j | 0 <= i < |prepared| && 0 <= j < |prepared|
      ensures i != j && prepared[i].partial.Some? ==> prepared[i].partial != prepared[j].partial
      ensures prepared[i].partial != Some(prepared[j].destination)
    {
      RowsApart(kind, name, sources, ids, root, transfer, prepared, i, j);
    }
  }

  /** `present` has the name of everything in the receive directory. */
  ghost predicate NamesIn(base: Path, files: map<Path, Bytes>, present: set<string>) {
    forall p :: p in files && base <= p && |base| < |p| ==> p[|base|] in present
  }

  lemma NothingBelowFreeName(base: Path, files: map<Path, Bytes>, present: set<string>, chosen: string)
    requires NamesIn(base, files, present) && chosen !in present
    ensures forall p :: p in files ==> !(base + [chosen] <= p)
  {
    forall p | p in files
      ensures !(base + [chosen] <= p)
    {
      NextComponent(base, chosen, p);
    }
  }

  lemma NextComponent(base: Path, chosen: string, p: Path)
    ensures base + [chosen] <= p ==> base <= p && |base| < |p| && p[|base|] == chosen
  {
    assert base == (base + [chosen])[..|base|] && (base + [chosen])[|base|] == chosen;
  }

  /** From an offer to files: a manifest that passed validation, prepared below a free name,
      over partials that may hold the beginning of their sources, then any run of connections,
      cuts, kills and restarts. Once the transfer counts as completed, every file of the manifest is at its place below the root, byte for byte. */
  lemma FromManifestToFiles(kind: M.MessageKind, name: string, sources: seq<M.SourceItem>, ids: seq<nat>,
                            records: seq<Record>, base: Path, present: set<string>, files: map<Path, Bytes>,
                            number: nat, transfer: string, prepared: seq<Prepared>, after: map<Path, Bytes>,
                            src: map<nat, Bytes>, offsets: T.Offsets, sender: T.Offsets, run: seq<D.World>, i: nat,
                            k: nat)
    requires |prepared| == |sources| == |ids| && i < |run| && k < |sources| && sources[k].kind.FileItem?
    requires M.Acceptable(kind, name, sources) && RecordsOf(sources, ids, records) && NoPartialNames(sources, transfer)
    requires NamesIn(base, files, present) && Candidate(name, number) !in present
    requires PrepareAll(files, base + [Candidate(name, number)], kind.Folder?, name, transfer, records)
          == Some((prepared, after))
    requires Resumes(sources, ids, prepared, files, src) && Records(prepared, offsets)
    requires run[0] == D.World(T.Disk(after, offsets, {}), sender, false)
    requires forall j :: 0 <= j < |run| - 1 ==> D.Next(RowsOf(sources, prepared), src, run[j], run[j + 1])
    requires run[i].completed
    ensures var p := DestinationOf(base + [Candidate(name, number)], sources[k]);
            p in run[i].disk.files && run[i].disk.files[p] == src[ids[k]]
  {
    var root := base + [Candidate(name, number)];
    NothingBelowFreeName(base, files, present, Candidate(name, number));
    PreparedIsValid(kind, name, sources, ids, records, files, root, transfer, prepared, after);
    PreparedIsAccepting(kind, name, sources, ids, records, files, root, transfer, prepared, after, src, offsets, sender);
    PreparedForManifest(kind, name, sources, ids, records, files, root, transfer, prepared, after);
    var rows := RowsOf(sources, prepared);
    D.RunStaysSound(rows, src, run, i);
    assert rows[k] in rows;
  }
}
