/** Building and validating transfer manifests: two loops written separately that must accept
    the same lists. */
module Manifest {
  import opened Basics
  import opened Paths

  const MAX_FILE_ENTRIES: nat := 10_000
  const MAX_MANIFEST_ENTRIES: nat := 20_001

  datatype MessageKind = Text | File | Image | Folder | ClipboardText | ClipboardImage | System

  datatype ItemKind = FileItem | DirectoryItem

  datatype SourceItem = SourceItem(kind: ItemKind, source: Option<string>, path: string, size: nat, modified: int)

  datatype ManifestEntry = ManifestEntry(id: nat, kind: ItemKind, path: string, size: nat, modified: int, source: Option<string>)

  datatype TransferManifest = TransferManifest(
    kind: MessageKind, name: string, totalSize: nat, entryCount: nat, entries: seq<ManifestEntry>)

  datatype ManifestError =
    | InvalidMessageKind | SourceUnavailable | SymbolicLink | SizeOverflow | EntryLimit | JsonLimit
    | InvalidPath | InvalidHierarchy | InvalidTotals | MissingSource

  predicate KindOk(kind: MessageKind) {
    kind in {File, Image, Folder, ClipboardImage}
  }

  function CountFiles(sources: seq<SourceItem>): nat {
    if sources == [] then 0
    else CountFiles(sources[..|sources| - 1]) + if sources[|sources| - 1].kind.FileItem? then 1 else 0
  }

  /** The sum of the sizes of the files. */
  function FileTotal(sources: seq<SourceItem>): nat {
    if sources == [] then 0
    else FileTotal(sources[..|sources| - 1]) + if sources[|sources| - 1].kind.FileItem? then sources[|sources| - 1].size else 0
  }

  ghost predicate Listed(sources: seq<SourceItem>, n: nat, path: string) {
    exists j :: 0 <= j < n && j < |sources| && sources[j].path == path
  }

  /** Item `i` starts at the display name, repeats no earlier path, and its parent path is
      listed earlier (as any kind of entry). */
  ghost predicate Placed(name: string, sources: seq<SourceItem>, i: nat)
    requires i < |sources|
  {
    var path := sources[i].path;
    && Split(path)[0] == name
    && !Listed(sources, i, path)
    && (Parent(path).Some? ==> Listed(sources, i, Parent(path).value))
  }

  predicate Shaped(kind: MessageKind, name: string, sources: seq<SourceItem>)
    requires sources != []
  {
    if kind.Folder? then sources[0].kind.DirectoryItem? && sources[0].path == name
    else |sources| == 1 && sources[0].kind.FileItem?
  }

  ghost predicate ItemGood(name: string, sources: seq<SourceItem>, i: nat)
    requires i < |sources|
  {
    && ValidPath(sources[i].path) && Placed(name, sources, i)
    && (sources[i].kind.DirectoryItem? ==> sources[i].size == 0)
  }

  ghost predicate ItemsGood(name: string, sources: seq<SourceItem>) {
    forall i :: 0 <= i < |sources| ==> ItemGood(name, sources, i)
  }

  predicate WithinLimits(kind: MessageKind, name: string, sources: seq<SourceItem>) {
    && KindOk(kind) && ValidPath(name) && '/' !in name
    && 0 < |sources| <= MAX_MANIFEST_ENTRIES && CountFiles(sources) <= MAX_FILE_ENTRIES
  }

  /** What both validators accept. */
  ghost predicate Acceptable(kind: MessageKind, name: string, sources: seq<SourceItem>) {
    && WithinLimits(kind, name, sources) && Shaped(kind, name, sources)
    && ItemsGood(name, sources) && FileTotal(sources) <= I64_MAX
  }

  ghost predicate Hierarchical(kind: MessageKind, name: string, sources: seq<SourceItem>) {
    && sources != [] && Shaped(kind, name, sources)
    && forall i :: 0 <= i < |sources| ==> Placed(name, sources, i)
  }

  predicate HasSource(item: SourceItem) {
    item.kind.FileItem? ==> item.source.Some? && item.source.value != ""
  }

  ghost predicate AllSourced(sources: seq<SourceItem>) {
    forall i :: 0 <= i < |sources| ==> HasSource(sources[i])
  }

  /** The fault among the items of a list that an error names. */
  ghost predicate FaultyItems(name: string, sources: seq<SourceItem>, error: ManifestError) {
    match error
    case InvalidPath => exists i :: 0 <= i < |sources| && !ValidPath(sources[i].path)
    case InvalidHierarchy => exists i :: 0 <= i < |sources| && !Placed(name, sources, i)
    case InvalidTotals => exists i :: 0 <= i < |sources| && sources[i].kind.DirectoryItem? && sources[i].size != 0
    case SizeOverflow => FileTotal(sources) > I64_MAX
    case MissingSource => !AllSourced(sources)
    case _ => false
  }

  /** The fault of a list that an error names. */
  ghost predicate Faulty(kind: MessageKind, name: string, sources: seq<SourceItem>, error: ManifestError) {
    || FaultyItems(name, sources, error)
    || match error
       case InvalidMessageKind => kind !in {File, Image, Folder, ClipboardImage}
       case InvalidPath => !ValidPath(name) || '/' in name
       case EntryLimit => '/' in name || sources == [] || |sources| > MAX_MANIFEST_ENTRIES || CountFiles(sources) > MAX_FILE_ENTRIES
       case InvalidHierarchy => sources == [] || !Shaped(kind, name, sources)
       case _ => false
  }

  lemma FaultIsReal(kind: MessageKind, name: string, sources: seq<SourceItem>, error: ManifestError)
    requires Faulty(kind, name, sources, error) && error != MissingSource
    ensures !Acceptable(kind, name, sources) && (error == InvalidHierarchy ==> !Hierarchical(kind, name, sources))
  {
    if i: nat :| i < |sources| && (!ValidPath(sources[i].path) || (sources[i].kind.DirectoryItem? && sources[i].size != 0)) {
      assert !ItemGood(name, sources, i);
    }
    if i: nat :| i < |sources| && !Placed(name, sources, i) {
      assert !ItemGood(name, sources, i);
    }
  }

  lemma {:induction false} TotalGrows(sources: seq<SourceItem>, n: nat)
    requires n <= |sources|
    ensures FileTotal(sources[..n]) <= FileTotal(sources)
    ensures n < |sources| ==> FileTotal(sources[..n + 1]) == FileTotal(sources[..n]) + if sources[n].kind.FileItem? then sources[n].size else 0
    decreases |sources|
  {
    if n < |sources| {
      assert sources[..n + 1][..n] == sources[..n];
      TotalGrows(sources[..|sources| - 1], n);
      assert sources[..|sources| - 1][..n] == sources[..n];
    } else {
      assert sources[..n] == sources;
    }
  }

  method CountFileSources(sources: seq<SourceItem>) returns (count: nat)
    ensures count == CountFiles(sources)
  {
    count := 0;
    for i := 0 to |sources|
      invariant count == CountFiles(sources[..i])
    {
      assert sources[..i + 1][..i] == sources[..i];
      if sources[i].kind.FileItem? { count := count + 1; }
    }
    assert sources[..|sources|] == sources;
  }

  /** The running state of either loop after `n` items. */
  ghost predicate Scanned(name: string, sources: seq<SourceItem>, n: nat, seen: set<string>, total: nat) {
    && n <= |sources|
    && (forall i :: 0 <= i < n ==> ItemGood(name, sources, i))
    && (forall path :: path in seen <==> Listed(sources, n, path))
    && total == FileTotal(sources[..n])
  }

  /** What the checks on one item mean: passing them all, the scan covers it; failing one,
      the list is not acceptable. */
  lemma ScanChecks(name: string, sources: seq<SourceItem>, n: nat, after: nat, seen: set<string>, total: nat)
    requires after == n + 1 <= |sources| && Scanned(name, sources, n, seen, total)
    ensures var item := sources[n];
            var placed := Split(item.path)[0] == name && item.path !in seen && (Parent(item.path).Some? ==> Parent(item.path).value in seen + {item.path});
            var sum := if item.kind.FileItem? then total + item.size else total;
            && (placed <==> Placed(name, sources, n))
            && (ItemGood(name, sources, n) <==> ValidPath(item.path) && placed && (item.kind.DirectoryItem? ==> item.size == 0))
            && (ItemGood(name, sources, n) ==> Scanned(name, sources, after, seen + {item.path}, sum))
            && (!ValidPath(item.path) ==> FaultyItems(name, sources, InvalidPath))
            && (!placed ==> FaultyItems(name, sources, InvalidHierarchy))
            && (item.kind.DirectoryItem? && item.size != 0 ==> FaultyItems(name, sources, InvalidTotals))
            && (sum > I64_MAX ==> FaultyItems(name, sources, SizeOverflow))
  {
    NotItsOwnParent(sources[n].path);
    TotalGrows(sources, n);
    TotalGrows(sources, after);
    SeenGrows(sources, n, after, seen);
  }

  lemma SeenGrows(sources: seq<SourceItem>, n: nat, after: nat, seen: set<string>)
    requires after == n + 1 <= |sources| && forall path :: path in seen <==> Listed(sources, n, path)
    ensures forall path :: path in seen + {sources[n].path} <==> Listed(sources, after, path)
  {
    forall path
      ensures path in seen + {sources[n].path} <==> Listed(sources, after, path)
    {
      if Listed(sources, n, path) {
        var j :| 0 <= j < n && sources[j].path == path;
      }
    }
  }

  lemma NotItsOwnParent(path: string)
    ensures Parent(path) != Some(path)
  {
    ParentSegments(path);
  }

  /** The validator of received manifests; entries have ids already. */
  method BuildManifestWithoutIds(kind: MessageKind, name: string, sources: seq<SourceItem>)
    returns (result: Result<nat, ManifestError>)
    ensures result.Ok? <==> Acceptable(kind, name, sources)
    ensures result.Ok? ==> result.value == FileTotal(sources)
    ensures result.Err? ==> result.error != MissingSource && Faulty(kind, name, sources, result.error)
  {
    if !KindOk(kind) { return Err(InvalidMessageKind); }
    if !ValidPath(name) { return Err(InvalidPath); }
    var files := CountFileSources(sources);
    if '/' in name || sources == [] || |sources| > MAX_MANIFEST_ENTRIES || files > MAX_FILE_ENTRIES {
      return Err(EntryLimit);
    }
    var seen: set<string>, total: nat, index: nat := {}, 0, 0;
    while index < |sources|
      invariant Scanned(name, sources, index, seen, total) && total <= I64_MAX
      invariant index > 0 ==> Shaped(kind, name, sources)
    {
      var item, after := sources[index], index + 1;
      ScanChecks(name, sources, index, after, seen, total);
      if !ValidPath(item.path) { return Err(InvalidPath); }
      if Split(item.path)[0] != name || item.path in seen { return Err(InvalidHierarchy); }
      if Parent(item.path).Some? && Parent(item.path).value !in seen + {item.path} {
        return Err(InvalidHierarchy);
      }
      if item.kind.DirectoryItem? {
        if item.size != 0 { return Err(InvalidTotals); }
      } else {
        if total + item.size > U64_MAX { return Err(SizeOverflow); }
        total := total + item.size;
        if total > I64_MAX || item.size > I64_MAX { return Err(SizeOverflow); }
      }
      if kind.Folder? {
        if index == 0 && (!item.kind.DirectoryItem? || item.path != name) { return Err(InvalidHierarchy); }
      } else if |sources| != 1 || !item.kind.FileItem? {
        return Err(InvalidHierarchy);
      }
      seen, index := seen + {item.path}, after;
    }
    assert sources[..|sources|] == sources;
    return Ok(total);
  }

  function SourceOf(entry: ManifestEntry): SourceItem {
    SourceItem(entry.kind, if entry.source.None? && entry.kind.FileItem? then Some("remote") else entry.source,
               entry.path, entry.size, entry.modified)
  }

  function SourcesOf(entries: seq<ManifestEntry>): (r: seq<SourceItem>)
    ensures |r| == |entries| && forall i :: 0 <= i < |r| ==> r[i] == SourceOf(entries[i])
  {
    seq(|entries|, i requires 0 <= i < |entries| => SourceOf(entries[i]))
  }

  ghost predicate DistinctIds(entries: seq<ManifestEntry>) {
    forall i, j :: 0 <= i < j < |entries| ==> entries[i].id != entries[j].id
  }

  ghost predicate ValidManifest(m: TransferManifest, fits: TransferManifest -> bool) {
    && Acceptable(m.kind, m.name, SourcesOf(m.entries))
    && m.entryCount == |m.entries| && m.totalSize == FileTotal(SourcesOf(m.entries))
    && DistinctIds(m.entries) && fits(m)
  }

  method IdsDiffer(entries: seq<ManifestEntry>) returns (distinct: bool)
    ensures distinct <==> DistinctIds(entries)
  {
    var seen: set<nat> := {};
    for i := 0 to |entries|
      invariant forall id :: id in seen <==> exists j :: 0 <= j < i && entries[j].id == id
      invariant DistinctIds(entries[..i])
    {
      if entries[i].id in seen {
        assert !DistinctIds(entries);
        return false;
      }
      seen := seen + {entries[i].id};
    }
    assert entries[..|entries|] == entries;
    return true;
  }

  /** The fault of a manifest that an error names. */
  ghost predicate FaultyManifest(m: TransferManifest, fits: TransferManifest -> bool, error: ManifestError) {
    || (error != MissingSource && Faulty(m.kind, m.name, SourcesOf(m.entries), error))
    || (error == InvalidTotals && (m.entryCount != |m.entries| || m.totalSize != FileTotal(SourcesOf(m.entries)) || !DistinctIds(m.entries)))
    || (error == JsonLimit && !fits(m))
  }

  /** `fits` says whether the JSON text of a manifest is within its limit. */
  method ValidateManifest(m: TransferManifest, fits: TransferManifest -> bool)
    returns (result: Result<(), ManifestError>)
    ensures result.Ok? <==> ValidManifest(m, fits)
    ensures result.Err? ==> FaultyManifest(m, fits, result.error)
  {
    var sources := SourcesOf(m.entries);
    var rebuilt := BuildManifestWithoutIds(m.kind, m.name, sources);
    if rebuilt.Err? { return Err(rebuilt.error); }
    var distinct := IdsDiffer(m.entries);
    if m.entryCount != |m.entries| || m.totalSize != rebuilt.value || !distinct { return Err(InvalidTotals); }
    if !fits(m) { return Err(JsonLimit); }
    return Ok(());
  }

  function EntryOf(item: SourceItem, id: nat): ManifestEntry {
    ManifestEntry(id, item.kind, item.path, item.size, item.modified, item.source)
  }

  function EntriesOf(sources: seq<SourceItem>, ids: seq<nat>): (r: seq<ManifestEntry>)
    requires |ids| == |sources|
    ensures |r| == |sources| && forall i :: 0 <= i < |r| ==> r[i] == EntryOf(sources[i], ids[i])
  {
    seq(|sources|, i requires 0 <= i < |sources| => EntryOf(sources[i], ids[i]))
  }

  /** The manifest of a list of sources, with the ids generated for it. */
  function Built(kind: MessageKind, name: string, sources: seq<SourceItem>, ids: seq<nat>): TransferManifest
    requires |ids| == |sources|
  {
    TransferManifest(kind, name, FileTotal(sources), |sources|, EntriesOf(sources, ids))
  }

  ghost predicate Collected(sources: seq<SourceItem>, ids: seq<nat>, n: nat, entries: seq<ManifestEntry>) {
    && n == |entries| <= |sources| == |ids|
    && forall i :: 0 <= i < n ==> HasSource(sources[i]) && entries[i] == EntryOf(sources[i], ids[i])
  }

  lemma CollectNext(sources: seq<SourceItem>, ids: seq<nat>, n: nat, after: nat, entries: seq<ManifestEntry>)
    requires after == n + 1 <= |sources| && Collected(sources, ids, n, entries) && HasSource(sources[n])
    ensures Collected(sources, ids, after, entries + [EntryOf(sources[n], ids[n])])
  {
  }

  /** The entry loop of the builder. */
  method CollectEntries(name: string, sources: seq<SourceItem>, ids: seq<nat>)
    returns (failure: Option<ManifestError>, entries: seq<ManifestEntry>, total: nat)
    requires |ids| == |sources|
    ensures failure == None <==> ItemsGood(name, sources) && AllSourced(sources) && FileTotal(sources) <= I64_MAX
    ensures failure == None ==> entries == EntriesOf(sources, ids) && total == FileTotal(sources)
    ensures failure.Some? ==> FaultyItems(name, sources, failure.value)
  {
    var seen: set<string>, index: nat := {}, 0;
    entries, total := [], 0;
    while index < |sources|
      invariant Scanned(name, sources, index, seen, total) && total <= I64_MAX
      invariant Collected(sources, ids, index, entries)
    {
      var item, after := sources[index], index + 1;
      ScanChecks(name, sources, index, after, seen, total);
      if !ValidPath(item.path) { return Some(InvalidPath), [], 0; }
      if item.path in seen { return Some(InvalidHierarchy), [], 0; }
      if Split(item.path)[0] != name { return Some(InvalidHierarchy), [], 0; }
      if Parent(item.path).Some? && Parent(item.path).value !in seen + {item.path} {
        return Some(InvalidHierarchy), [], 0;
      }
      match item.kind {
        case DirectoryItem =>
          if item.size != 0 { return Some(InvalidTotals), [], 0; }
        case FileItem =>
          if item.source.None? || item.source.value == "" { return Some(MissingSource), [], 0; }
          if total + item.size > U64_MAX { return Some(SizeOverflow), [], 0; }
          total := total + item.size;
          if total > I64_MAX || item.size > I64_MAX { return Some(SizeOverflow), [], 0; }
      }
      CollectNext(sources, ids, index, after, entries);
      seen, entries, index := seen + {item.path}, entries + [EntryOf(item, ids[index])], after;
    }
    assert sources[..|sources|] == sources && entries == EntriesOf(sources, ids);
    return None, entries, total;
  }

  /** The builder of outgoing manifests; `ids` are the results of `EntryId::generate()`. It
      accepts what the other validator accepts, provided every file has a source and the JSON
      fits; in particular its own final validation never fails on anything else. */
  method BuildManifest(kind: MessageKind, name: string, sources: seq<SourceItem>, ids: seq<nat>,
                       fits: TransferManifest -> bool)
    returns (result: Result<TransferManifest, ManifestError>)
    requires |ids| == |sources| && forall i, j :: 0 <= i < j < |ids| ==> ids[i] != ids[j]
    ensures result.Ok? <==>
              Acceptable(kind, name, sources) && AllSourced(sources) && fits(Built(kind, name, sources, ids))
    ensures result.Ok? ==> result.value == Built(kind, name, sources, ids) && ValidManifest(result.value, fits)
    ensures result.Err? ==>
              Faulty(kind, name, sources, result.error) || (result.error == JsonLimit && !fits(Built(kind, name, sources, ids)))
  {
    if !KindOk(kind) { return Err(InvalidMessageKind); }
    if !ValidPath(name) { return Err(InvalidPath); }
    if '/' in name { return Err(InvalidPath); }
    var files := CountFileSources(sources);
    if sources == [] || |sources| > MAX_MANIFEST_ENTRIES || files > MAX_FILE_ENTRIES {
      return Err(EntryLimit);
    }
    var failure, entries, total := CollectEntries(name, sources, ids);
    if failure.Some? { return Err(failure.value); }
    if kind.Folder? {
      if !entries[0].kind.DirectoryItem? || entries[0].path != name { return Err(InvalidHierarchy); }
    } else if |entries| != 1 || !entries[0].kind.FileItem? {
      return Err(InvalidHierarchy);
    }
    var manifest := TransferManifest(kind, name, total, |entries|, entries);
    RemoteSources(kind, name, sources, ids);
    var valid := ValidateManifest(manifest, fits);
    if valid.Err? { return Err(valid.error); }
    return Ok(manifest);
  }

  /** With a source for every file, the list rebuilt from the entries is the list itself. */
  lemma RemoteSources(kind: MessageKind, name: string, sources: seq<SourceItem>, ids: seq<nat>)
    requires |ids| == |sources| && AllSourced(sources)
    ensures SourcesOf(Built(kind, name, sources, ids).entries) == sources
  {
  }

  // ------------------------------------------------------ what acceptance means

  /** In an accepted list every proper ancestor of an entry, down to the display name, is the
      path of an earlier entry. */
  lemma {:induction false} AncestorsComeFirst(kind: MessageKind, name: string, sources: seq<SourceItem>, i: nat, n: nat)
    returns (j: nat)
    requires Acceptable(kind, name, sources) && i < |sources| && 0 < n < |Split(sources[i].path)|
    ensures j < i && Split(sources[j].path) == Split(sources[i].path)[..n]
    decreases i
  {
    var path := sources[i].path;
    assert ItemGood(name, sources, i);
    ParentSegments(path);
    var k: nat :| k < i && sources[k].path == Parent(path).value;
    var segments := Split(path);
    if n == |segments| - 1 {
      j := k;
    } else {
      j := AncestorsComeFirst(kind, name, sources, k, n);
      assert segments[..|segments| - 1][..n] == segments[..n];
    }
  }

  /** Accepted lists have no path twice, every path starts with the display name, and the sum
      of the file sizes fits the database column. */
  lemma AcceptedPathsAreUnique(kind: MessageKind, name: string, sources: seq<SourceItem>, i: nat, j: nat)
    requires Acceptable(kind, name, sources) && i < |sources| && j < |sources| && i != j
    ensures sources[i].path != sources[j].path && Split(sources[i].path) != Split(sources[j].path)
    ensures Split(sources[i].path)[0] == name && FileTotal(sources) <= I64_MAX
  {
    assert ItemGood(name, sources, i) && ItemGood(name, sources, j);
    if Split(sources[i].path) == Split(sources[j].path) {
      SplitIsInjective(sources[i].path, sources[j].path);
    }
  }
}
